/** From submission to publication: what the contribution service stores, and
    what the moderator's merge makes of it. */
module Publication {
  import opened Common
  import opened Text
  import opened ParkingEdits
  import opened ProposalCodec
  import Json

  /** An IANA timezone. */
  datatype Zone = Zone(id: nat)

  /** How timezone names are written and read. */
  datatype ZoneTable = ZoneTable(name: Zone -> string, parse: string -> Option<Zone>) {
    ghost predicate RoundTrips() {
      forall z {:trigger name(z)} :: name(z) != [] && Trim(name(z)) == name(z) && parse(name(z)) == Some(z)
    }
  }

  // ---------------------------------------------------------------------------
  // Merge
  // ---------------------------------------------------------------------------

  /** What the moderator retyped; an absent field keeps the proposer's value. */
  datatype ProposalOverride = ProposalOverride(
    lat: Option<real>, lon: Option<real>, timezone: Option<string>, present: Option<bool>)

  const KEEP_ALL: ProposalOverride := ProposalOverride(None, None, None, None)

  datatype Application =
    | ApplyEdit(edit: ParkingEdit)
    | ApplyMove(lat: real, lon: real, timezone: Zone)
    | ApplyExistence(present: bool)

  datatype ProposalField = Lat | Lon | Timezone | Existence

  datatype MergeError = InvalidState | InvalidProposalField(field: ProposalField)

  function Or<T>(first: Option<T>, second: Option<T>): Option<T> {
    if first.Some? then first else second
  }

  function KindOf(a: Application): ProposalKind {
    match a
    case ApplyEdit(_) => EditKind
    case ApplyMove(_, _, _) => MoveKind
    case ApplyExistence(_) => ExistenceKind
  }

  function MergeMove(zones: ZoneTable, lat: Option<real>, lon: Option<real>,
                     timezone: Option<string>): Result<Application, MergeError>
  {
    if lat.None? then Err(InvalidProposalField(Lat))
    else if lon.None? then Err(InvalidProposalField(Lon))
    else if !(-90.0 <= lat.value <= 90.0) then Err(InvalidProposalField(Lat))
    else if !(-180.0 <= lon.value <= 180.0) then Err(InvalidProposalField(Lon))
    else if NonBlank(timezone).None? then Err(InvalidProposalField(Timezone))
    else
      var zone := zones.parse(NonBlank(timezone).value);
      if zone.None? then Err(InvalidProposalField(Timezone))
      else Ok(ApplyMove(lat.value, lon.value, zone.value))
  }

  /** Whatever merges has the row's kind. */
  function Merge(zones: ZoneTable, kind: ProposalKind, change: ProposedChange,
                 over: ProposalOverride): (r: Result<Application, MergeError>)
    ensures r.Ok? ==> KindOf(r.value) == kind
  {
    match kind
    case EditKind => if change.EditDetails? then Ok(ApplyEdit(change.edit)) else Err(InvalidState)
    case MoveKind =>
      if change.MoveLocation?
      then MergeMove(zones, Or(over.lat, Some(change.lat)), Or(over.lon, Some(change.lon)),
          Or(over.timezone, change.timezone))
      else MergeMove(zones, over.lat, over.lon, over.timezone)
    case ExistenceKind =>
      var fallback := if change.ChangeExistence? then Some(change.present) else None;
      var present := Or(over.present, fallback);
      if present.Some? then Ok(ApplyExistence(present.value)) else Err(InvalidProposalField(Existence))
  }

  /** A move merges exactly when the values in force are complete and valid: each
      the moderator's if given, else the proposer's. */
  lemma MoveMergesIff(zones: ZoneTable, change: ProposedChange, over: ProposalOverride)
    ensures var proposed := change.MoveLocation?;
            var lat := Or(over.lat, if proposed then Some(change.lat) else None);
            var lon := Or(over.lon, if proposed then Some(change.lon) else None);
            var tz := NonBlank(Or(over.timezone, if proposed then change.timezone else None));
            var merged := Merge(zones, MoveKind, change, over);
            (merged.Ok? <==>
               lat.Some? && lon.Some? && InRange(lat.value, lon.value) && tz.Some? && zones.parse(tz.value).Some?)
            && (merged.Ok? ==> merged.value == ApplyMove(lat.value, lon.value, zones.parse(tz.value).value))
  {
  }

  // ---------------------------------------------------------------------------
  // Submission
  // ---------------------------------------------------------------------------

  datatype NewProposal = NewProposal(
    location: int, proposer: int, baseVersion: int, kind: ProposalKind, proposed: Json.Value)

  datatype Location = Location(version: int, active: bool)

  datatype SubmitError =
    | NotVerified | RateLimited | NotFound | LocationNotActive | VersionConflict
    | BadTimezone | InvalidField | StoreFailed | AuditFailed

  /** What the ports answer during one submission. */
  datatype Ports = Ports(
    verified: bool,
    allowed: bool,
    current: Option<Location>,
    resolved: Option<Zone>,
    created: Option<int>,
    audited: bool)

  function Admit(ports: Ports): Result<Location, SubmitError> {
    if !ports.verified then Err(NotVerified)
    else if !ports.allowed then Err(RateLimited)
    else if ports.current.None? then Err(NotFound)
    else if !ports.current.value.active then Err(LocationNotActive)
    else Ok(ports.current.value)
  }

  /** The proposal an edit becomes, or why it is refused. */
  function EditProposal(format: TimeFormat, ports: Ports, user: int, location: int, expected: int,
                        edit: ParkingEdit): Result<NewProposal, SubmitError>
  {
    if !ports.verified then Err(NotVerified)
    else if !ports.allowed then Err(RateLimited)
    else if Trim(edit.name) == [] || Trim(edit.address) == [] then Err(InvalidField)
    else
      var current := Admit(ports);
      if current.Err? then Err(current.error)
      else if current.value.version != expected then Err(VersionConflict)
      else
        var proposed := ToJson(format, edit);
        if FromJson(format, proposed).None? then Err(InvalidField)
        else Ok(NewProposal(location, user, expected, EditKind, proposed))
  }

  /** A move is stored with its timezone resolved and under its own name. */
  function ResolveZone(zones: ZoneTable, ports: Ports, change: ProposedChange): Result<ProposedChange, SubmitError> {
    if !change.MoveLocation? then Ok(change)
    else
      var zone := if change.timezone.Some? then zones.parse(change.timezone.value) else ports.resolved;
      if zone.None? then Err(BadTimezone) else Ok(change.(timezone := Some(zones.name(zone.value))))
  }

  /** The proposal any other listing change becomes, or why it is refused. */
  function ChangeProposal(format: TimeFormat, zones: ZoneTable, ports: Ports, user: int, location: int,
                          kind: ProposalKind, raw: Json.Value): Result<NewProposal, SubmitError>
  {
    var current := Admit(ports);
    if current.Err? then Err(current.error)
    else
      var payload := PayloadFrom(format, kind, raw);
      if payload.change == UnknownChange || payload.change == ChangeExistence(true) then Err(InvalidField)
      else
        var change := ResolveZone(zones, ports, payload.change);
        if change.Err? then Err(change.error)
        else Ok(NewProposal(location, user, current.value.version, kind,
            PayloadJson(format, payload.(change := change.value))))
  }

  /** Either way of submitting a change. */
  datatype Submission =
    | SubmitEdit(ports: Ports, user: int, location: int, expected: int, edit: ParkingEdit)
    | SubmitChange(ports: Ports, user: int, location: int, kind: ProposalKind, raw: Json.Value)

  function Submitted(format: TimeFormat, zones: ZoneTable, sub: Submission): Result<NewProposal, SubmitError> {
    match sub
    case SubmitEdit(ports, user, location, expected, edit) =>
      EditProposal(format, ports, user, location, expected, edit)
    case SubmitChange(ports, user, location, kind, raw) =>
      ChangeProposal(format, zones, ports, user, location, kind, raw)
  }

  /** What the caller is told once a proposal was made. */
  function StoreReply(ports: Ports): Result<int, SubmitError> {
    if ports.created.None? then Err(StoreFailed)
    else if !ports.audited then Err(AuditFailed)
    else Ok(ports.created.value)
  }

  /** The service: proposals it has stored, by id. */
  class ContributionService {
    const format: TimeFormat
    const zones: ZoneTable
    var stored: map<int, NewProposal>

    ghost predicate Valid()
      reads this
    {
      && format.RoundTrips() && zones.RoundTrips()
      && forall id :: id in stored ==> Publishable(format, zones, stored[id])
    }

    constructor (format: TimeFormat, zones: ZoneTable)
      requires format.RoundTrips() && zones.RoundTrips()
      ensures Valid() && stored == map[]
    {
      this.format, this.zones, stored := format, zones, map[];
    }

    /** Stores and audits. A failed audit reports an error for a proposal that is
        already stored. */
    method Store(ports: Ports, p: NewProposal) returns (r: Result<int, SubmitError>)
      requires Valid() && Publishable(format, zones, p)
      modifies this`stored
      ensures Valid()
      ensures stored == if ports.created.Some? then old(stored)[ports.created.value := p] else old(stored)
      ensures r == StoreReply(ports)
    {
      if ports.created.None? {
        return Err(StoreFailed);
      }
      stored := stored[ports.created.value := p];
      if !ports.audited {
        return Err(AuditFailed);
      }
      return Ok(ports.created.value);
    }

    /** Nothing is stored unless the edit makes a proposal, and every stored
        proposal stays publishable. */
    method ApplyParkingEdit(ports: Ports, user: int, location: int, expected: int, edit: ParkingEdit)
      returns (r: Result<int, SubmitError>)
      requires Valid()
      modifies this`stored
      ensures Valid()
      ensures var p := EditProposal(format, ports, user, location, expected, edit);
              && (p.Err? ==> r == Err(p.error) && stored == old(stored))
              && (p.Ok? ==>
                    && r == StoreReply(ports)
                    && stored == if ports.created.Some? then old(stored)[ports.created.value := p.value]
                      else old(stored))
    {
      if !ports.verified {
        return Err(NotVerified);
      }
      if !ports.allowed {
        return Err(RateLimited);
      }
      if Trim(edit.name) == [] || Trim(edit.address) == [] {
        return Err(InvalidField);
      }
      if ports.current.None? {
        return Err(NotFound);
      }
      var current := ports.current.value;
      if !current.active {
        return Err(LocationNotActive);
      }
      if current.version != expected {
        return Err(VersionConflict);
      }
      var proposed := ToJson(format, edit);
      var decoded := Decode(format, proposed);
      if decoded.None? {
        return Err(InvalidField);
      }
      AcceptedEditPublishes(format, zones, ports, user, location, expected, edit);
      r := Store(ports, NewProposal(location, user, expected, EditKind, proposed));
    }

    /** Rewrites a move's timezone in place before storing it. */
    method ProposeLocationChange(ports: Ports, user: int, location: int, kind: ProposalKind, raw: Json.Value)
      returns (r: Result<int, SubmitError>)
      requires Valid()
      modifies this`stored
      ensures Valid()
      ensures var p := ChangeProposal(format, zones, ports, user, location, kind, raw);
              && (p.Err? ==> r == Err(p.error) && stored == old(stored))
              && (p.Ok? ==>
                    && r == StoreReply(ports)
                    && stored == if ports.created.Some? then old(stored)[ports.created.value := p.value]
                      else old(stored))
    {
      var current := Admit(ports);
      if current.Err? {
        return Err(current.error);
      }
      var payload := PayloadFrom(format, kind, raw);
      if payload.change == UnknownChange {
        return Err(InvalidField);
      }
      if payload.change == ChangeExistence(true) {
        return Err(InvalidField);
      }
      var change := NameZone(ports, payload.change);
      if change.Err? {
        return Err(change.error);
      }
      payload := payload.(change := change.value);
      var proposed := PrintPayload(format, payload);
      AcceptedChangePublishes(format, zones, ports, user, location, kind, raw);
      r := Store(ports, NewProposal(location, user, current.value.version, kind, proposed));
    }

    /** A move's own timezone if it parses, else the one its point lies in. */
    method NameZone(ports: Ports, change: ProposedChange) returns (r: Result<ProposedChange, SubmitError>)
      ensures r == ResolveZone(zones, ports, change)
    {
      if change.MoveLocation? {
        var zone := ports.resolved;
        if change.timezone.Some? {
          zone := zones.parse(change.timezone.value);
        }
        if zone.None? {
          return Err(BadTimezone);
        }
        return Ok(change.(timezone := Some(zones.name(zone.value))));
      }
      return Ok(change);
    }
  }

  // ---------------------------------------------------------------------------
  // Whatever is accepted can be published as it stands
  // ---------------------------------------------------------------------------

  /** What publishing a stored proposal applies when the moderator types nothing. */
  function Published(format: TimeFormat, zones: ZoneTable, p: NewProposal): Result<Application, MergeError> {
    Merge(zones, p.kind, PayloadFrom(format, p.kind, p.proposed).change, KEEP_ALL)
  }

  predicate Publishable(format: TimeFormat, zones: ZoneTable, p: NewProposal) {
    Published(format, zones, p).Ok?
  }

  lemma PayloadWithoutNote(format: TimeFormat, e: ParkingEdit)
    ensures ToJson(format, e) == PayloadJson(format, Payload(EditDetails(e), None))
  {
  }

  /** An accepted edit publishes as its canonical form. An edit is accepted, once
      the caller and the location pass, exactly when it is valid. */
  lemma AcceptedEditPublishes(format: TimeFormat, zones: ZoneTable, ports: Ports, user: int, location: int,
                              expected: int, edit: ParkingEdit)
    requires format.RoundTrips()
    ensures var p := EditProposal(format, ports, user, location, expected, edit);
            && (p.Ok? ==> Published(format, zones, p.value) == Ok(ApplyEdit(Canonical(edit))))
            && (p.Ok? <==> Admit(ports).Ok? && Admit(ports).value.version == expected && ParkingEdits.Valid(edit))
  {
    RoundTrip(format, edit);
    PayloadWithoutNote(format, edit);
    if ParkingEdits.Valid(edit) {
      StoredChangeReadsBack(format, EditKind, Payload(EditDetails(edit), None));
    }
  }

  /** What an accepted change asks for, in the values publication writes. */
  function Intended(zones: ZoneTable, ports: Ports, change: ProposedChange): Option<Application> {
    match change
    case EditDetails(edit) => Some(ApplyEdit(Canonical(edit)))
    case MoveLocation(lat, lon, timezone) =>
      var zone := if timezone.Some? then zones.parse(timezone.value) else ports.resolved;
      if zone.Some? then Some(ApplyMove(lat, lon, zone.value)) else None
    case ChangeExistence(present) => if present then None else Some(ApplyExistence(false))
    case UnknownChange => None
  }

  /** Publishing what was stored from a readable payload merges its canonical
      change. */
  lemma StoredPublishes(format: TimeFormat, zones: ZoneTable, p: NewProposal, payload: Payload)
    requires format.RoundTrips()
    requires Storable(p.kind, payload.change) && NonBlank(payload.reason) == payload.reason
    requires p.proposed == PayloadJson(format, payload)
    ensures Published(format, zones, p) == Merge(zones, p.kind, CanonicalChange(payload.change), KEEP_ALL)
  {
    StoredPayloadReadsBack(format, p.kind, payload);
  }

  /** A decoded change, once its timezone is resolved, merges as intended. */
  lemma ResolvedMerges(zones: ZoneTable, ports: Ports, kind: ProposalKind, change: ProposedChange)
    requires zones.RoundTrips() && Storable(kind, change)
    requires change != UnknownChange && change != ChangeExistence(true)
    ensures var resolved, intended := ResolveZone(zones, ports, change), Intended(zones, ports, change);
            && (resolved.Ok? <==> intended.Some?)
            && (resolved.Ok? ==>
                  && Storable(kind, resolved.value)
                  && Merge(zones, kind, CanonicalChange(resolved.value), KEEP_ALL) == Ok(intended.value))
  {
  }

  /** Every accepted edit, move or removal publishes with no moderator input, as
      exactly what the proposer asked for; a change is accepted, once the caller
      and the location pass, exactly when it asks for something. */
  lemma AcceptedChangePublishes(format: TimeFormat, zones: ZoneTable, ports: Ports, user: int, location: int,
                                kind: ProposalKind, raw: Json.Value)
    requires format.RoundTrips() && zones.RoundTrips()
    ensures var p := ChangeProposal(format, zones, ports, user, location, kind, raw);
            var intended := Intended(zones, ports, ChangeFrom(format, kind, raw));
            && (p.Ok? <==> Admit(ports).Ok? && intended.Some?)
            && (p.Ok? ==>
                  && Published(format, zones, p.value) == Ok(intended.value)
                  && p.value.kind == kind == KindOf(intended.value))
  {
    DecodedIsStorable(format, kind, raw);
    var payload := PayloadFrom(format, kind, raw);
    var p := ChangeProposal(format, zones, ports, user, location, kind, raw);
    if payload.change != UnknownChange && payload.change != ChangeExistence(true) {
      ResolvedMerges(zones, ports, kind, payload.change);
      if p.Ok? {
        var resolved := ResolveZone(zones, ports, payload.change).value;
        StoredPublishes(format, zones, p.value, payload.(change := resolved));
      }
    }
  }

  /** What a submission asks for: its edit in canonical form, or its change with the
      timezone resolved. */
  function Asked(format: TimeFormat, zones: ZoneTable, sub: Submission): Option<Application> {
    match sub
    case SubmitEdit(_, _, _, _, edit) => Some(ApplyEdit(Canonical(edit)))
    case SubmitChange(ports, _, _, kind, raw) => Intended(zones, ports, ChangeFrom(format, kind, raw))
  }

  /** Whatever is accepted, either way, publishes with no moderator input as exactly what
      was asked for. */
  lemma AcceptedSubmissionPublishes(format: TimeFormat, zones: ZoneTable, sub: Submission)
    requires format.RoundTrips() && zones.RoundTrips() && Submitted(format, zones, sub).Ok?
    ensures Asked(format, zones, sub).Some?
    ensures Published(format, zones, Submitted(format, zones, sub).value) == Ok(Asked(format, zones, sub).value)
  {
    match sub
    case SubmitEdit(ports, user, location, expected, edit) =>
      AcceptedEditPublishes(format, zones, ports, user, location, expected, edit);
    case SubmitChange(ports, user, location, kind, raw) =>
      AcceptedChangePublishes(format, zones, ports, user, location, kind, raw);
  }
}
