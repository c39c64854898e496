/** The stored form of a proposal: a typed change and the proposer's note,
    sharing one JSON object whose kind only the row's column knows. */
module ProposalCodec {
  import opened Common
  import opened Text
  import opened ParkingEdits
  import Json

  datatype ProposalKind = EditKind | MoveKind | ExistenceKind

  datatype ProposedChange =
    | EditDetails(edit: ParkingEdit)
    | MoveLocation(lat: real, lon: real, timezone: Option<string>)
    | ChangeExistence(present: bool)
    | UnknownChange

  datatype Payload = Payload(change: ProposedChange, reason: Option<string>)

  predicate InRange(lat: real, lon: real) {
    -90.0 <= lat <= 90.0 && -180.0 <= lon <= 180.0
  }

  /** Trimmed text, absent when blank. */
  function NonBlank(s: Option<string>): (r: Option<string>)
    ensures r.Some? ==> r.value != [] && Trim(r.value) == r.value
    ensures s.Some? && s.value != [] && Trim(s.value) == s.value ==> r == s
  {
    if s.Some? && Trim(s.value) != [] then Some(Trim(s.value)) else None
  }

  // ---------------------------------------------------------------------------
  // Changes
  // ---------------------------------------------------------------------------

  function NumberAt(raw: Json.Value, key: string): Option<real> {
    var v :- Json.Get(raw, key);
    Json.AsF64(v)
  }

  function BoolAt(raw: Json.Value, key: string): Option<bool> {
    var v :- Json.Get(raw, key);
    Json.AsBool(v)
  }

  function MoveFrom(raw: Json.Value): ProposedChange {
    var lat, lon := NumberAt(raw, "lat"), NumberAt(raw, "lon");
    if lat.Some? && lon.Some? && InRange(lat.value, lon.value)
    then MoveLocation(lat.value, lon.value, NonBlank(Json.StrAt(raw, "timezone")))
    else UnknownChange
  }

  function ExistenceFrom(raw: Json.Value): ProposedChange {
    var code := Json.StrAt(raw, "existence");
    if code == Some("exists") then ChangeExistence(true)
    else if code == Some("removed") then ChangeExistence(false)
    else if code.Some? then UnknownChange
    else
      var flag := BoolAt(raw, "exists");
      if flag.Some? then ChangeExistence(flag.value) else UnknownChange
  }

  /** Never fails: a payload it cannot read becomes `UnknownChange`. */
  function ChangeFrom(format: TimeFormat, kind: ProposalKind, raw: Json.Value): ProposedChange {
    match kind
    case EditKind =>
      var edit := FromJson(format, raw);
      if edit.Some? then EditDetails(edit.value) else UnknownChange
    case MoveKind => MoveFrom(raw)
    case ExistenceKind => ExistenceFrom(raw)
  }

  function ChangeMembers(format: TimeFormat, change: ProposedChange): map<string, Json.Value> {
    match change
    case EditDetails(edit) => ToJson(format, edit).fields
    case MoveLocation(lat, lon, Some(tz)) =>
      map["lat" := Json.Float(lat), "lon" := Json.Float(lon), "timezone" := Json.Str(tz)]
    case MoveLocation(lat, lon, None) => map["lat" := Json.Float(lat), "lon" := Json.Float(lon)]
    case ChangeExistence(present) => map["existence" := Json.Str(if present then "exists" else "removed")]
    case UnknownChange => map[]
  }

  // ---------------------------------------------------------------------------
  // Payloads: the note shares the change's object
  // ---------------------------------------------------------------------------

  function NewPayload(change: ProposedChange, reason: Option<string>): Payload {
    Payload(change, NonBlank(reason))
  }

  function PayloadFrom(format: TimeFormat, kind: ProposalKind, raw: Json.Value): Payload {
    NewPayload(ChangeFrom(format, kind, raw), Json.StrAt(raw, "reason"))
  }

  function PayloadJson(format: TimeFormat, p: Payload): Json.Value {
    var members := ChangeMembers(format, p.change);
    Json.Obj(if p.reason.Some? then members["reason" := Json.Str(p.reason.value)] else members)
  }

  /** Inserts the note into the change's object in place. */
  method PrintPayload(format: TimeFormat, p: Payload) returns (out: Json.Value)
    ensures out == PayloadJson(format, p)
  {
    var members := ChangeMembers(format, p.change);
    if p.reason.Some? {
      members := members["reason" := Json.Str(p.reason.value)];
    }
    return Json.Obj(members);
  }

  function CanonicalChange(change: ProposedChange): ProposedChange {
    match change
    case EditDetails(edit) => EditDetails(Canonical(edit))
    case _ => change
  }

  /** What a change has to satisfy to be read back under `kind`. */
  predicate Storable(kind: ProposalKind, change: ProposedChange) {
    match change
    case EditDetails(edit) => kind == EditKind && Valid(edit)
    case MoveLocation(lat, lon, tz) => kind == MoveKind && InRange(lat, lon) && NonBlank(tz) == tz
    case ChangeExistence(_) => kind == ExistenceKind
    case UnknownChange => true
  }

  lemma ReasonStaysApart(format: TimeFormat, p: Payload, key: string)
    ensures key != "reason" ==>
              Json.Get(PayloadJson(format, p), key) == Json.Get(Json.Obj(ChangeMembers(format, p.change)), key)
    ensures p.reason.Some? ==> Json.StrAt(PayloadJson(format, p), "reason") == p.reason
    ensures p.reason.None? && "reason" !in ChangeMembers(format, p.change) ==>
              Json.StrAt(PayloadJson(format, p), "reason") == None
  {
  }

  lemma NoChangeWritesReason(format: TimeFormat, change: ProposedChange)
    ensures "reason" !in ChangeMembers(format, change)
  {
    match change
    case EditDetails(edit) =>
      assert ToJson(format, edit).fields.Keys ==
             {"name", "address", "description", "type", "cost", "hours", "security"};
    case _ =>
  }

  /** A stored change reads back as its canonical form, whatever note shares its
      object, and the note reads back unchanged, whatever the change. */
  lemma StoredPayloadReadsBack(format: TimeFormat, kind: ProposalKind, p: Payload)
    requires format.RoundTrips()
    requires Storable(kind, p.change) && NonBlank(p.reason) == p.reason
    ensures PayloadFrom(format, kind, PayloadJson(format, p)) == Payload(CanonicalChange(p.change), p.reason)
  {
    NoChangeWritesReason(format, p.change);
    ReasonStaysApart(format, p, "reason");
    StoredChangeReadsBack(format, kind, p);
  }

  lemma StoredChangeReadsBack(format: TimeFormat, kind: ProposalKind, p: Payload)
    requires format.RoundTrips() && Storable(kind, p.change)
    ensures ChangeFrom(format, kind, PayloadJson(format, p)) == CanonicalChange(p.change)
  {
    var raw := PayloadJson(format, p);
    match p.change
    case EditDetails(edit) =>
      PrintedCarries(format, edit);
      EditSharesObject(format, p);
      CarriedEditDecodes(format, raw, edit);
    case MoveLocation(lat, lon, tz) =>
      ReasonStaysApart(format, p, "lat");
      ReasonStaysApart(format, p, "lon");
      ReasonStaysApart(format, p, "timezone");
      assert NumberAt(raw, "lat") == Some(lat) && NumberAt(raw, "lon") == Some(lon);
      assert Json.StrAt(raw, "timezone") == tz;
    case ChangeExistence(_) =>
      ReasonStaysApart(format, p, "existence");
    case UnknownChange =>
      UnknownStaysUnknown(format, kind, p);
  }

  lemma EditSharesObject(format: TimeFormat, p: Payload)
    requires p.change.EditDetails?
    ensures Carries(format, PayloadJson(format, p), p.change.edit)
  {
    PrintedCarries(format, p.change.edit);
    ReasonStaysApart(format, p, "name");
    ReasonStaysApart(format, p, "address");
    ReasonStaysApart(format, p, "description");
    ReasonStaysApart(format, p, "type");
    ReasonStaysApart(format, p, "cost");
    ReasonStaysApart(format, p, "hours");
    ReasonStaysApart(format, p, "security");
  }

  lemma UnknownStaysUnknown(format: TimeFormat, kind: ProposalKind, p: Payload)
    requires p.change.UnknownChange?
    ensures ChangeFrom(format, kind, PayloadJson(format, p)) == UnknownChange
  {
    ReasonStaysApart(format, p, "name");
    ReasonStaysApart(format, p, "lat");
    ReasonStaysApart(format, p, "existence");
    ReasonStaysApart(format, p, "exists");
    assert Json.Get(PayloadJson(format, p), "name") == None;
  }

  lemma DecodedIsStorable(format: TimeFormat, kind: ProposalKind, raw: Json.Value)
    ensures Storable(kind, ChangeFrom(format, kind, raw))
  {
    if kind == EditKind && FromJson(format, raw).Some? {
      AcceptedIsValid(format, raw);
    }
  }

  /** For every kind and every JSON value: what was decoded survives being
      printed and decoded again, change and note alike. */
  lemma PayloadRoundTrip(format: TimeFormat, kind: ProposalKind, raw: Json.Value)
    requires format.RoundTrips()
    ensures var p := PayloadFrom(format, kind, raw);
            PayloadFrom(format, kind, PayloadJson(format, p)) == Payload(CanonicalChange(p.change), p.reason)
  {
    DecodedIsStorable(format, kind, raw);
    StoredPayloadReadsBack(format, kind, PayloadFrom(format, kind, raw));
  }

  /** One round is enough: the canonical payload prints to JSON that decodes to
      itself. */
  lemma CanonicalPayloadIsFixed(format: TimeFormat, kind: ProposalKind, p: Payload)
    requires format.RoundTrips()
    requires Storable(kind, p.change) && NonBlank(p.reason) == p.reason
    ensures var again := PayloadFrom(format, kind, PayloadJson(format, p));
            PayloadJson(format, again) == PayloadJson(format, p)
  {
    StoredPayloadReadsBack(format, kind, p);
    if p.change.EditDetails? {
      CanonicalIsFixed(format, p.change.edit);
    }
  }
}
