/** The editable part of a listing and its hand-written JSON codec. */
module ParkingEdits {
  import opened Common
  import opened Text
  import opened OpeningHours
  import Json

  // ---------------------------------------------------------------------------
  // Value types and their codes
  // ---------------------------------------------------------------------------

  datatype ParkingType = Rack | ParkingFacility | Indoor | Secured | Locker | Other

  function TypeCode(t: ParkingType): string {
    match t
    case Rack => "rack"
    case ParkingFacility => "parking_facility"
    case Indoor => "indoor"
    case Secured => "secured"
    case Locker => "locker"
    case Other => "other"
  }

  function TypeFromCode(code: string): Option<ParkingType> {
    if code == "rack" then Some(Rack)
    else if code == "parking_facility" then Some(ParkingFacility)
    else if code == "indoor" then Some(Indoor)
    else if code == "secured" then Some(Secured)
    else if code == "locker" then Some(Locker)
    else if code == "other" then Some(Other)
    else None
  }

  datatype PricingUnit = Hour | PerDay | Month | Entry

  function UnitCode(u: PricingUnit): string {
    match u
    case Hour => "hour"
    case PerDay => "day"
    case Month => "month"
    case Entry => "entry"
  }

  function UnitFromCode(code: string): Option<PricingUnit> {
    if code == "hour" then Some(Hour)
    else if code == "day" then Some(PerDay)
    else if code == "month" then Some(Month)
    else if code == "entry" then Some(Entry)
    else None
  }

  predicate IsCurrency(code: string) {
    |code| == 3 && forall i :: 0 <= i < |code| ==> 'A' <= code[i] <= 'Z'
  }

  type CurrencyCode = code: string | IsCurrency(code) witness "BRL"

  function Upper(c: char): char {
    if 'a' <= c <= 'z' then c - 'a' + 'A' else c
  }

  /** Trimmed and upper-cased, then three ASCII letters. */
  function ParseCurrency(code: string): (r: Option<CurrencyCode>)
    ensures IsCurrency(code) ==> r == Some(code)
  {
    var trimmed := Trim(code);
    var upper := seq(|trimmed|, i requires 0 <= i < |trimmed| => Upper(trimmed[i]));
    assert IsCurrency(code) ==> upper == code;
    if IsCurrency(upper) then Some(upper) else None
  }

  type I64 = i: int | Json.I64_MIN <= i <= Json.I64_MAX

  datatype Money = Money(cents: I64, currency: CurrencyCode, unit: PricingUnit)

  datatype Cost = Free | Paid(price: Option<Money>) | UnknownCost

  function KindCode(c: Cost): string {
    match c
    case Free => "free"
    case Paid(_) => "paid"
    case UnknownCost => "unknown"
  }

  function CostFromKind(kind: string, price: Option<Money>): Option<Cost> {
    if kind == "free" then Some(Free)
    else if kind == "paid" then Some(Paid(price))
    else if kind == "unknown" then Some(UnknownCost)
    else None
  }

  datatype SecurityState = Unverified | Yes | No

  function StateCode(s: SecurityState): int {
    match s
    case Unverified => 0
    case Yes => 1
    case No => 2
  }

  function StateFromCode(i: int): Option<SecurityState> {
    if i == 0 then Some(Unverified) else if i == 1 then Some(Yes) else if i == 2 then Some(No) else None
  }

  datatype SecurityFeature = SecurityFeature(code: string, state: SecurityState)

  /** The security attributes, in catalogue order. */
  const CATALOGUE: seq<string> := [
    "dedicated_locking_point", "indoor", "cctv", "staffed",
    "security_guard", "controlled_access", "well_lit", "restricted_access"
  ]

  lemma CatalogueHasNoRepeats()
    ensures NoDuplicates(CATALOGUE)
  {
    forall i, j | 0 <= i < j < |CATALOGUE| ensures CATALOGUE[i] != CATALOGUE[j] {
      assert |CATALOGUE[i]| != |CATALOGUE[j]| || CATALOGUE[i][0] != CATALOGUE[j][0];
    }
  }

  datatype ParkingEdit = ParkingEdit(
    name: string, address: string, description: Option<string>, parkingType: ParkingType,
    cost: Cost, hours: Hours, security: seq<SecurityFeature>)

  /** How wall-clock times are written and read. */
  datatype TimeFormat = TimeFormat(show: Time -> string, parse: string -> Option<Time>) {
    ghost predicate RoundTrips() {
      forall t: Time :: parse(show(t)) == Some(t)
    }
  }

  // ---------------------------------------------------------------------------
  // Printing
  // ---------------------------------------------------------------------------

  function CostJson(c: Cost): Json.Value {
    if c.Paid? && c.price.Some? then
      var p := c.price.value;
      Json.Obj(map["kind" := Json.Str("paid"), "cents" := Json.Int(p.cents),
                   "currency" := Json.Str(p.currency), "unit" := Json.Str(UnitCode(p.unit))])
    else Json.Obj(map["kind" := Json.Str(KindCode(c))])
  }

  function RowJson(format: TimeFormat, row: Row): Json.Value {
    Json.Arr([Json.Int(row.day), Json.Str(format.show(row.range.opensAt)),
              Json.Str(format.show(row.range.closesAt)), Json.Bool(row.range.allDay)])
  }

  function RowsOf(hours: Hours): seq<Row> {
    if hours.Weekly? then hours.rows else []
  }

  function HoursJson(format: TimeFormat, hours: Hours): Json.Value {
    var rows := RowsOf(hours);
    Json.Obj(map["unknown" := Json.Bool(hours.UnknownHours?),
                 "rows" := Json.Arr(seq(|rows|, i requires 0 <= i < |rows| => RowJson(format, rows[i])))])
  }

  /** The state of the first feature with this code, or unknown. */
  function StateOf(features: seq<SecurityFeature>, code: string): SecurityState {
    if features == [] then Unverified
    else if features[0].code == code then features[0].state
    else StateOf(features[1..], code)
  }

  function FeatureJson(f: SecurityFeature): Json.Value {
    Json.Arr([Json.Str(f.code), Json.Int(StateCode(f.state))])
  }

  /** Every catalogue attribute, in catalogue order, whatever the edit lists. */
  function CatalogueStates(features: seq<SecurityFeature>): (r: seq<SecurityFeature>)
    ensures |r| == |CATALOGUE| && forall i :: 0 <= i < |r| ==> r[i].code == CATALOGUE[i]
  {
    seq(|CATALOGUE|, i requires 0 <= i < |CATALOGUE| => SecurityFeature(CATALOGUE[i], StateOf(features, CATALOGUE[i])))
  }

  function SecurityJson(features: seq<SecurityFeature>): seq<Json.Value> {
    var listed := CatalogueStates(features);
    seq(|listed|, i requires 0 <= i < |listed| => FeatureJson(listed[i]))
  }

  function DescriptionJson(description: Option<string>): Json.Value {
    match description case None => Json.Null case Some(d) => Json.Str(d)
  }

  function ToJson(format: TimeFormat, e: ParkingEdit): Json.Value {
    Json.Obj(map["name" := Json.Str(Trim(e.name)), "address" := Json.Str(Trim(e.address)),
                 "description" := DescriptionJson(e.description), "type" := Json.Str(TypeCode(e.parkingType)),
                 "cost" := CostJson(e.cost), "hours" := HoursJson(format, e.hours),
                 "security" := Json.Arr(SecurityJson(e.security))])
  }

  // ---------------------------------------------------------------------------
  // Parsing
  // ---------------------------------------------------------------------------

  function BoundedText(raw: Json.Value, key: string, limit: nat): Option<string> {
    var s :- Json.StrAt(raw, key);
    var trimmed := Trim(s);
    if trimmed == [] || |trimmed| > limit then None else Some(trimmed)
  }

  function DescriptionFrom(raw: Json.Value): Option<Option<string>> {
    var d :- Json.Get(raw, "description");
    match d
    case Null => Some(None)
    case Str(s) => if |s| <= 5000 then Some(Some(s)) else None
    case _ => None
  }

  function MoneyFrom(c: Json.Value, cents: I64): Option<Money> {
    var currencyCode :- Json.StrAt(c, "currency");
    var currency :- ParseCurrency(currencyCode);
    var unitCode :- Json.StrAt(c, "unit");
    var unit :- UnitFromCode(unitCode);
    Some(Money(cents, currency, unit))
  }

  function PriceFrom(c: Json.Value): Option<Option<Money>> {
    var centsMember := Json.Get(c, "cents");
    if centsMember.None? || centsMember.value.Null? then Some(None)
    else
      var cents :- Json.AsI64(centsMember.value);
      if cents < 0 then None
      else
        var price :- MoneyFrom(c, cents);
        Some(Some(price))
  }

  function CostFrom(raw: Json.Value): Option<Cost> {
    var c :- Json.Get(raw, "cost");
    var price :- PriceFrom(c);
    var kind :- Json.StrAt(c, "kind");
    CostFromKind(kind, price)
  }

  function RowFrom(format: TimeFormat, row: Json.Value): Option<Row> {
    var dayValue :- Json.At(row, 0);
    var day :- Json.AsU64(dayValue);
    if !(1 <= day <= 7) then None
    else
      var opensValue :- Json.At(row, 1);
      var opensText :- Json.AsStr(opensValue);
      var opens :- format.parse(opensText);
      var closesValue :- Json.At(row, 2);
      var closesText :- Json.AsStr(closesValue);
      var closes :- format.parse(closesText);
      var allDayValue :- Json.At(row, 3);
      var allDay :- Json.AsBool(allDayValue);
      Some(Row(day, TimeRange(opens, closes, allDay)))
  }

  /** All rows, or nothing if any one is malformed. */
  function RowsFrom(format: TimeFormat, rows: seq<Json.Value>): (r: Option<seq<Row>>)
    ensures r.Some? ==> |r.value| == |rows| && forall i :: 0 <= i < |rows| ==>
              RowFrom(format, rows[i]) == Some(r.value[i])
    ensures r.None? ==> exists i :: 0 <= i < |rows| && RowFrom(format, rows[i]).None?
  {
    if rows == [] then Some([])
    else
      var front := RowsFrom(format, rows[..|rows| - 1]);
      var last := RowFrom(format, rows[|rows| - 1]);
      if front.Some? && last.Some? then Some(front.value + [last.value]) else None
  }

  function HoursFrom(format: TimeFormat, raw: Json.Value): Option<Hours> {
    var h :- Json.Get(raw, "hours");
    var unknownValue :- Json.Get(h, "unknown");
    var unknown :- Json.AsBool(unknownValue);
    var rowsValue :- Json.Get(h, "rows");
    var items :- Json.AsArray(rowsValue);
    var rows :- RowsFrom(format, items);
    if unknown && rows != [] then None
    else Some(if unknown then UnknownHours else Weekly(rows))
  }

  predicate Lists(features: seq<SecurityFeature>, code: string) {
    exists i :: 0 <= i < |features| && features[i].code == code
  }

  function FeatureFrom(row: Json.Value): Option<SecurityFeature> {
    var codeValue :- Json.At(row, 0);
    var code :- Json.AsStr(codeValue);
    if code !in CATALOGUE then None
    else
      var stateValue :- Json.At(row, 1);
      var stateCode :- Json.AsI64(stateValue);
      var state :- StateFromCode(stateCode);
      Some(SecurityFeature(code, state))
  }

  /** One more attribute, unless it or one before it is refused. */
  function Pushed(front: Option<seq<SecurityFeature>>, last: Option<SecurityFeature>): Option<seq<SecurityFeature>> {
    if front.Some? && last.Some? && !Lists(front.value, last.value.code) then Some(front.value + [last.value]) else None
  }

  /** All attributes, or nothing if one is malformed, unknown or repeated. */
  function SecurityFrom(rows: seq<Json.Value>): Option<seq<SecurityFeature>> {
    if rows == [] then Some([]) else Pushed(SecurityFrom(rows[..|rows| - 1]), FeatureFrom(rows[|rows| - 1]))
  }

  lemma SecurityNext(rows: seq<Json.Value>, i: nat)
    requires i < |rows|
    ensures SecurityFrom(rows[..i + 1]) == Pushed(SecurityFrom(rows[..i]), FeatureFrom(rows[i]))
  {
    assert rows[..i + 1][..i] == rows[..i];
  }

  predicate DistinctCodes(features: seq<SecurityFeature>) {
    forall i, j :: 0 <= i < j < |features| ==> features[i].code != features[j].code
  }

  lemma PushedIsDistinct(front: seq<SecurityFeature>, last: SecurityFeature)
    requires DistinctCodes(front) && !Lists(front, last.code)
    ensures DistinctCodes(front + [last])
  {
  }

  /** What decodes does so attribute by attribute. */
  lemma {:induction false} DecodedAttributes(rows: seq<Json.Value>)
    requires SecurityFrom(rows).Some?
    ensures var features := SecurityFrom(rows).value;
            |features| == |rows| && forall i :: 0 <= i < |rows| ==> FeatureFrom(rows[i]) == Some(features[i])
  {
    if rows == [] {
    } else {
      DecodedAttributes(rows[..|rows| - 1]);
    }
  }

  /** And names no code twice. */
  lemma {:induction false} DecodedCodesAreDistinct(rows: seq<Json.Value>)
    requires SecurityFrom(rows).Some?
    ensures DistinctCodes(SecurityFrom(rows).value)
  {
    if rows == [] {
    } else {
      var n := |rows| - 1;
      DecodedCodesAreDistinct(rows[..n]);
      PushedIsDistinct(SecurityFrom(rows[..n]).value, FeatureFrom(rows[n]).value);
    }
  }

  lemma DecodedCodeIsKnown(row: Json.Value)
    requires FeatureFrom(row).Some?
    ensures FeatureFrom(row).value.code in CATALOGUE
  {
  }

  function FeaturesFrom(raw: Json.Value): Option<seq<SecurityFeature>> {
    var member :- Json.Get(raw, "security");
    var rows :- Json.AsArray(member);
    SecurityFrom(rows)
  }

  function TypeFrom(raw: Json.Value): Option<ParkingType> {
    var code :- Json.StrAt(raw, "type");
    TypeFromCode(code)
  }

  /** Incomplete or invalid payloads are refused as a whole. */
  function FromJson(format: TimeFormat, raw: Json.Value): Option<ParkingEdit> {
    var name, address := BoundedText(raw, "name", 200), BoundedText(raw, "address", 500);
    var description, cost, hours := DescriptionFrom(raw), CostFrom(raw), HoursFrom(format, raw);
    var security, parkingType := FeaturesFrom(raw), TypeFrom(raw);
    if name.Some? && address.Some? && description.Some? && cost.Some? && hours.Some? && security.Some? &&
        parkingType.Some?
    then
      Some(ParkingEdit(name.value, address.value, description.value, parkingType.value, cost.value, hours.value,
                       security.value))
    else None
  }

  // ---------------------------------------------------------------------------
  // The parsing loops
  // ---------------------------------------------------------------------------

  lemma {:induction false} RowsFromPrefix(format: TimeFormat, rows: seq<Json.Value>, n: nat)
    requires n <= |rows| && RowsFrom(format, rows[..n]).None?
    ensures RowsFrom(format, rows).None?
    decreases |rows| - n
  {
    if n < |rows| {
      assert rows[..n + 1][..n] == rows[..n];
      RowsFromPrefix(format, rows, n + 1);
    } else {
      assert rows[..n] == rows;
    }
  }

  /** Pushes row after row, leaving at the first malformed one. */
  method DecodeRows(format: TimeFormat, rows: seq<Json.Value>) returns (r: Option<seq<Row>>)
    ensures r == RowsFrom(format, rows)
  {
    var pushed: seq<Row> := [];
    var i := 0;
    while i < |rows|
      invariant i <= |rows|
      invariant RowsFrom(format, rows[..i]) == Some(pushed)
    {
      assert rows[..i + 1][..i] == rows[..i];
      var row := RowFrom(format, rows[i]);
      if row.None? {
        RowsFromPrefix(format, rows, i + 1);
        return None;
      }
      pushed := pushed + [row.value];
      i := i + 1;
    }
    assert rows[..i] == rows;
    return Some(pushed);
  }

  lemma {:induction false} SecurityFromPrefix(rows: seq<Json.Value>, n: nat)
    requires n <= |rows| && SecurityFrom(rows[..n]).None?
    ensures SecurityFrom(rows).None?
    decreases |rows| - n
  {
    if n < |rows| {
      SecurityNext(rows, n);
      SecurityFromPrefix(rows, n + 1);
    } else {
      assert rows[..n] == rows;
    }
  }

  method DecodeSecurity(rows: seq<Json.Value>) returns (r: Option<seq<SecurityFeature>>)
    ensures r == SecurityFrom(rows)
  {
    var pushed: seq<SecurityFeature> := [];
    var i := 0;
    while i < |rows|
      invariant i <= |rows|
      invariant SecurityFrom(rows[..i]) == Some(pushed)
    {
      SecurityNext(rows, i);
      var feature := FeatureFrom(rows[i]);
      if feature.None? || Lists(pushed, feature.value.code) {
        SecurityFromPrefix(rows, i + 1);
        return None;
      }
      pushed := pushed + [feature.value];
      i := i + 1;
    }
    assert rows[..i] == rows;
    return Some(pushed);
  }

  method DecodeHours(format: TimeFormat, raw: Json.Value) returns (r: Option<Hours>)
    ensures r == HoursFrom(format, raw)
  {
    var h :- Json.Get(raw, "hours");
    var unknownValue :- Json.Get(h, "unknown");
    var unknown :- Json.AsBool(unknownValue);
    var rowsValue :- Json.Get(h, "rows");
    var items :- Json.AsArray(rowsValue);
    var rows := DecodeRows(format, items);
    if rows.None? || (unknown && rows.value != []) {
      return None;
    }
    return Some(if unknown then UnknownHours else Weekly(rows.value));
  }

  method DecodeFeatures(raw: Json.Value) returns (r: Option<seq<SecurityFeature>>)
    ensures r == FeaturesFrom(raw)
  {
    var member :- Json.Get(raw, "security");
    var rows :- Json.AsArray(member);
    r := DecodeSecurity(rows);
  }

  /** Member after member, leaving at the first that is missing or invalid. */
  method Decode(format: TimeFormat, raw: Json.Value) returns (r: Option<ParkingEdit>)
    ensures r == FromJson(format, raw)
  {
    var name :- BoundedText(raw, "name", 200);
    var address :- BoundedText(raw, "address", 500);
    var description :- DescriptionFrom(raw);
    var cost :- CostFrom(raw);
    var hours := DecodeHours(format, raw);
    if hours.None? {
      return None;
    }
    var security := DecodeFeatures(raw);
    if security.None? {
      return None;
    }
    var parkingType :- TypeFrom(raw);
    return Some(ParkingEdit(name, address, description, parkingType, cost, hours.value, security.value));
  }

  // ---------------------------------------------------------------------------
  // Round trip
  // ---------------------------------------------------------------------------

  predicate ValidHours(hours: Hours) {
    hours.Weekly? ==> forall i :: 0 <= i < |hours.rows| ==> 1 <= hours.rows[i].day <= 7
  }

  predicate ValidCost(cost: Cost) {
    cost.Paid? && cost.price.Some? ==> cost.price.value.cents >= 0
  }

  /** The limits an edit must keep, text limits after trimming. */
  predicate Valid(e: ParkingEdit) {
    && 1 <= |Trim(e.name)| <= 200
    && 1 <= |Trim(e.address)| <= 500
    && (e.description.Some? ==> |e.description.value| <= 5000)
    && ValidCost(e.cost)
    && ValidHours(e.hours)
  }

  /** Text trimmed, and every catalogue attribute listed in catalogue order. */
  function Canonical(e: ParkingEdit): ParkingEdit {
    e.(name := Trim(e.name), address := Trim(e.address), security := CatalogueStates(e.security))
  }

  lemma CostRoundTrip(raw: Json.Value, cost: Cost)
    requires Json.Get(raw, "cost") == Some(CostJson(cost))
    ensures CostFrom(raw) == if ValidCost(cost) then Some(cost) else None
  {
    var c := CostJson(cost);
    if cost.Paid? && cost.price.Some? {
      var p := cost.price.value;
      assert Json.Get(c, "cents") == Some(Json.Int(p.cents));
      assert Json.StrAt(c, "currency") == Some(p.currency);
      assert Json.StrAt(c, "unit") == Some(UnitCode(p.unit));
      assert Json.StrAt(c, "kind") == Some("paid");
      assert UnitFromCode(UnitCode(p.unit)) == Some(p.unit);
    } else {
      assert Json.Get(c, "cents") == None;
      assert Json.StrAt(c, "kind") == Some(KindCode(cost));
    }
  }

  lemma RowRoundTrip(format: TimeFormat, row: Row)
    requires format.RoundTrips()
    ensures RowFrom(format, RowJson(format, row)) == if 1 <= row.day <= 7 then Some(row) else None
  {
  }

  lemma HoursRoundTrip(format: TimeFormat, raw: Json.Value, hours: Hours)
    requires format.RoundTrips()
    requires Json.Get(raw, "hours") == Some(HoursJson(format, hours))
    ensures HoursFrom(format, raw) == if ValidHours(hours) then Some(hours) else None
  {
    var h := HoursJson(format, hours);
    var rows := RowsOf(hours);
    var items := seq(|rows|, i requires 0 <= i < |rows| => RowJson(format, rows[i]));
    assert Json.Get(h, "unknown") == Some(Json.Bool(hours.UnknownHours?));
    assert Json.Get(h, "rows") == Some(Json.Arr(items));
    forall i | 0 <= i < |rows|
      ensures RowFrom(format, items[i]) == if 1 <= rows[i].day <= 7 then Some(rows[i]) else None
    {
      RowRoundTrip(format, rows[i]);
    }
    var decoded := RowsFrom(format, items);
    if decoded.Some? {
      assert decoded.value == rows;
    }
  }

  lemma FeatureRoundTrip(f: SecurityFeature)
    requires f.code in CATALOGUE
    ensures FeatureFrom(FeatureJson(f)) == Some(f)
  {
  }

  /** Rows that decode one by one, without repeats, decode together. */
  lemma {:induction false} RowsDecodeTogether(features: seq<SecurityFeature>, rows: seq<Json.Value>)
    requires |rows| == |features| && forall i :: 0 <= i < |rows| ==> FeatureFrom(rows[i]) == Some(features[i])
    requires DistinctCodes(features)
    ensures SecurityFrom(rows) == Some(features)
  {
    if rows == [] {
    } else {
      var n := |rows| - 1;
      RowsDecodeTogether(features[..n], rows[..n]);
      LastIsNew(features);
    }
  }

  lemma LastIsNew(features: seq<SecurityFeature>)
    requires features != [] && DistinctCodes(features)
    ensures var front, last := features[..|features| - 1], features[|features| - 1];
            Pushed(Some(front), Some(last)) == Some(features)
  {
    assert features == features[..|features| - 1] + [features[|features| - 1]];
  }

  lemma CatalogueRoundTrip(features: seq<SecurityFeature>)
    ensures SecurityFrom(SecurityJson(features)) == Some(CatalogueStates(features))
  {
    CatalogueHasNoRepeats();
    var listed := CatalogueStates(features);
    forall i | 0 <= i < |listed| ensures FeatureFrom(SecurityJson(features)[i]) == Some(listed[i]) {
      FeatureRoundTrip(listed[i]);
    }
    RowsDecodeTogether(listed, SecurityJson(features));
  }

  lemma TextRoundTrip(raw: Json.Value, key: string, s: string, limit: nat)
    requires Json.StrAt(raw, key) == Some(Trim(s))
    ensures BoundedText(raw, key, limit) == if 1 <= |Trim(s)| <= limit then Some(Trim(s)) else None
  {
  }

  lemma DescriptionRoundTrip(raw: Json.Value, d: Option<string>)
    requires Json.Get(raw, "description") == Some(DescriptionJson(d))
    ensures DescriptionFrom(raw) == if d.Some? ==> |d.value| <= 5000 then Some(d) else None
  {
  }

  lemma TypeRoundTrip(raw: Json.Value, t: ParkingType)
    requires Json.StrAt(raw, "type") == Some(TypeCode(t))
    ensures TypeFrom(raw) == Some(t)
  {
  }

  /** `raw` carries the members of a printed edit, and maybe others. */
  ghost predicate Carries(format: TimeFormat, raw: Json.Value, e: ParkingEdit) {
    && Json.StrAt(raw, "name") == Some(Trim(e.name))
    && Json.StrAt(raw, "address") == Some(Trim(e.address))
    && Json.Get(raw, "description") == Some(DescriptionJson(e.description))
    && Json.StrAt(raw, "type") == Some(TypeCode(e.parkingType))
    && Json.Get(raw, "cost") == Some(CostJson(e.cost))
    && Json.Get(raw, "hours") == Some(HoursJson(format, e.hours))
    && Json.Get(raw, "security") == Some(Json.Arr(SecurityJson(e.security)))
  }

  lemma PrintedCarries(format: TimeFormat, e: ParkingEdit)
    ensures Carries(format, ToJson(format, e), e)
  {
  }

  /** Members beyond the edit's own are never looked at. */
  lemma CarriedEditDecodes(format: TimeFormat, raw: Json.Value, e: ParkingEdit)
    requires format.RoundTrips() && Carries(format, raw, e)
    ensures FromJson(format, raw) == if Valid(e) then Some(Canonical(e)) else None
  {
    TextRoundTrip(raw, "name", e.name, 200);
    TextRoundTrip(raw, "address", e.address, 500);
    DescriptionRoundTrip(raw, e.description);
    CostRoundTrip(raw, e.cost);
    HoursRoundTrip(format, raw, e.hours);
    CatalogueRoundTrip(e.security);
    assert FeaturesFrom(raw) == Some(CatalogueStates(e.security));
    TypeRoundTrip(raw, e.parkingType);
  }

  /** Printing then parsing succeeds exactly for the valid edits, and gives the
      canonical form. */
  lemma RoundTrip(format: TimeFormat, e: ParkingEdit)
    requires format.RoundTrips()
    ensures FromJson(format, ToJson(format, e)) == if Valid(e) then Some(Canonical(e)) else None
  {
    PrintedCarries(format, e);
    CarriedEditDecodes(format, ToJson(format, e), e);
  }

  /** Whatever JSON it comes from, an accepted edit is valid, trimmed, and names
      each security attribute at most once. */
  lemma AcceptedIsValid(format: TimeFormat, raw: Json.Value)
    requires FromJson(format, raw).Some?
    ensures var e := FromJson(format, raw).value;
            && Valid(e) && Trim(e.name) == e.name && Trim(e.address) == e.address
            && (forall i :: 0 <= i < |e.security| ==> e.security[i].code in CATALOGUE)
            && (forall i, j :: 0 <= i < j < |e.security| ==> e.security[i].code != e.security[j].code)
  {
    var e := FromJson(format, raw).value;
    assert BoundedText(raw, "name", 200) == Some(e.name) && BoundedText(raw, "address", 500) == Some(e.address);
    assert DescriptionFrom(raw) == Some(e.description);
    AcceptedCost(raw);
    AcceptedHours(format, raw);
    AcceptedFeatures(raw);
  }

  lemma AcceptedCost(raw: Json.Value)
    requires CostFrom(raw).Some?
    ensures ValidCost(CostFrom(raw).value)
  {
  }

  lemma AcceptedHours(format: TimeFormat, raw: Json.Value)
    requires HoursFrom(format, raw).Some?
    ensures ValidHours(HoursFrom(format, raw).value)
  {
    var items := raw.fields["hours"].fields["rows"].items;
    assert RowsFrom(format, items).Some?;
  }

  lemma AcceptedFeatures(raw: Json.Value)
    requires FeaturesFrom(raw).Some?
    ensures var features := FeaturesFrom(raw).value;
            DistinctCodes(features) && forall i :: 0 <= i < |features| ==> features[i].code in CATALOGUE
  {
    var rows := Json.AsArray(Json.Get(raw, "security").value).value;
    DecodedAttributes(rows);
    DecodedCodesAreDistinct(rows);
    forall i | 0 <= i < |rows| ensures FeaturesFrom(raw).value[i].code in CATALOGUE {
      DecodedCodeIsKnown(rows[i]);
    }
  }

  lemma {:induction false} StateOfCatalogue(features: seq<SecurityFeature>, listed: seq<SecurityFeature>, code: string)
    requires Lists(listed, code)
    requires forall i :: 0 <= i < |listed| ==> listed[i].state == StateOf(features, listed[i].code)
    ensures StateOf(listed, code) == StateOf(features, code)
  {
    if listed[0].code != code {
      var i :| 0 <= i < |listed| && listed[i].code == code;
      assert listed[1..][i - 1].code == code;
      StateOfCatalogue(features, listed[1..], code);
    }
  }

  /** The canonical form is a fixed point, keeps validity, and prints the same. */
  lemma CanonicalIsFixed(format: TimeFormat, e: ParkingEdit)
    ensures Canonical(Canonical(e)) == Canonical(e)
    ensures Valid(Canonical(e)) <==> Valid(e)
    ensures ToJson(format, Canonical(e)) == ToJson(format, e)
  {
    var listed := CatalogueStates(e.security);
    forall i | 0 <= i < |CATALOGUE| ensures CatalogueStates(listed)[i] == listed[i] {
      assert listed[i].code == CATALOGUE[i];
      StateOfCatalogue(e.security, listed, CATALOGUE[i]);
    }
    assert CatalogueStates(listed) == listed;
  }
}
