/** Weekly opening hours in a location's own wall-clock time. */
module OpeningHours {

  /** Wall-clock resolution: nanoseconds since midnight. */
  const DAY: nat := 86_400_000_000_000
  const WEEK: nat := 7 * DAY

  type Time = t: int | 0 <= t < DAY

  /** A stored day number; only 1 (Monday) to 7 (Sunday) name a day. */
  type IsoDay = d: int | 0 <= d < 256

  datatype TimeRange = TimeRange(opensAt: Time, closesAt: Time, allDay: bool)

  datatype Row = Row(day: IsoDay, range: TimeRange)

  datatype Hours = UnknownHours | Weekly(rows: seq<Row>)

  datatype OpenStatus = Open | Closed | Unknown

  // ---------------------------------------------------------------------------
  // The case analysis on today and yesterday
  // ---------------------------------------------------------------------------

  predicate Overnight(range: TimeRange) {
    !range.allDay && range.closesAt <= range.opensAt
  }

  predicate OpenByRow(row: Row, today: IsoDay, t: Time) {
    var yesterday := if today == 1 then 7 else today - 1;
    || (row.day == today &&
          (|| row.range.allDay
           || (Overnight(row.range) && row.range.opensAt <= t)
           || (!Overnight(row.range) && row.range.opensAt <= t < row.range.closesAt)))
    || (row.day == yesterday && Overnight(row.range) && t < row.range.closesAt)
  }

  /** `today` and `t` are the instant converted to the location's timezone. */
  method StatusAt(hours: Hours, today: IsoDay, t: Time) returns (status: OpenStatus)
    requires 1 <= today <= 7
    ensures status.Unknown? <==> hours.UnknownHours?
    ensures hours.Weekly? ==> (status.Open? <==> OpenOnTheWeek(hours.rows, MomentOfWeek(today, t)))
  {
    if hours.UnknownHours? {
      return Unknown;
    }
    var yesterday := if today == 1 then 7 else today - 1;
    var i := 0;
    while i < |hours.rows|
      invariant i <= |hours.rows|
      invariant forall j :: 0 <= j < i ==> !InInterval(hours.rows[j], MomentOfWeek(today, t))
    {
      var Row(day, range) := hours.rows[i];
      RowIsItsInterval(hours.rows[i], today, t);
      var overnight := !range.allDay && range.closesAt <= range.opensAt;
      if day == today {
        if range.allDay {
          return Open;
        }
        if overnight && range.opensAt <= t {
          return Open;
        }
        if !overnight && range.opensAt <= t && t < range.closesAt {
          return Open;
        }
      }
      if day == yesterday && overnight && t < range.closesAt {
        return Open;
      }
      i := i + 1;
    }
    return Closed;
  }

  // ---------------------------------------------------------------------------
  // What it means: intervals on the circle of the week
  // ---------------------------------------------------------------------------

  function MomentOfWeek(day: IsoDay, t: Time): int
    requires 1 <= day <= 7
  {
    (day - 1) * DAY + t
  }

  function Starts(row: Row): int {
    (row.day - 1) * DAY + if row.range.allDay then 0 else row.range.opensAt
  }

  /** How long the row stays open; an overnight row runs into the next day. */
  function Lasts(range: TimeRange): int {
    if range.allDay then DAY
    else if range.closesAt <= range.opensAt then range.closesAt + DAY - range.opensAt
    else range.closesAt - range.opensAt
  }

  /** `w` lies at most `Lasts` after the row's start, going around the week. */
  predicate InInterval(row: Row, w: int) {
    1 <= row.day <= 7 && (w - Starts(row)) % WEEK < Lasts(row.range)
  }

  predicate OpenOnTheWeek(rows: seq<Row>, w: int) {
    exists i :: 0 <= i < |rows| && InInterval(rows[i], w)
  }

  lemma WrapsOnce(x: int)
    requires -(WEEK as int) < x < WEEK
    ensures x % WEEK == if x < 0 then x + WEEK else x
  {
  }

  /** The cases on today and yesterday are membership in the row's circular
      interval: overnight rows and the Sunday-to-Monday wrap included, and rows
      whose day is no day at all never open. */
  lemma RowIsItsInterval(row: Row, today: IsoDay, t: Time)
    requires 1 <= today <= 7
    ensures OpenByRow(row, today, t) <==> InInterval(row, MomentOfWeek(today, t))
  {
    if 1 <= row.day <= 7 {
      var gap := MomentOfWeek(today, t) - Starts(row);
      WrapsOnce(gap);
    }
  }

  /** The answer depends on which rows there are, not on their order or number. */
  lemma OrderDoesNotMatter(rows: seq<Row>, other: seq<Row>, w: int)
    requires forall row :: row in rows ==> row in other
    ensures OpenOnTheWeek(rows, w) ==> OpenOnTheWeek(other, w)
  {
    if i :| 0 <= i < |rows| && InInterval(rows[i], w) {
      assert rows[i] in other;
      var j :| 0 <= j < |other| && other[j] == rows[i];
    }
  }

  // ---------------------------------------------------------------------------
  // Regrouping by day
  // ---------------------------------------------------------------------------

  /** The ranges of one day, in row order. */
  function OnDay(rows: seq<Row>, day: IsoDay): seq<TimeRange> {
    if rows == [] then []
    else OnDay(rows[..|rows| - 1], day) + if rows[|rows| - 1].day == day then [rows[|rows| - 1].range] else []
  }

  /** Seven lists, one per weekday; rows on no weekday are dropped. */
  method RowsByDay(hours: Hours) returns (days: array<seq<TimeRange>>)
    ensures fresh(days) && days.Length == 7
    ensures forall d :: 1 <= d <= 7 ==>
              days[d - 1] == if hours.Weekly? then OnDay(hours.rows, d) else []
  {
    days := new seq<TimeRange>[7](_ => []);
    if hours.Weekly? {
      var i := 0;
      while i < |hours.rows|
        invariant i <= |hours.rows|
        invariant forall d :: 1 <= d <= 7 ==> days[d - 1] == OnDay(hours.rows[..i], d)
      {
        var Row(day, range) := hours.rows[i];
        assert hours.rows[..i + 1][..i] == hours.rows[..i];
        if 1 <= day <= 7 {
          days[day - 1] := days[day - 1] + [range];
        }
        i := i + 1;
      }
      assert hours.rows[..i] == hours.rows;
    }
  }

  function AsRows(day: IsoDay, ranges: seq<TimeRange>): seq<Row> {
    seq(|ranges|, i requires 0 <= i < |ranges| => Row(day, ranges[i]))
  }

  /** A schedule rebuilt from the seven lists, Monday first. */
  function Regrouped(rows: seq<Row>): seq<Row> {
    AsRows(1, OnDay(rows, 1)) + AsRows(2, OnDay(rows, 2)) + AsRows(3, OnDay(rows, 3)) + AsRows(4, OnDay(rows, 4)) +
    AsRows(5, OnDay(rows, 5)) + AsRows(6, OnDay(rows, 6)) + AsRows(7, OnDay(rows, 7))
  }

  lemma {:induction false} OnDayMember(rows: seq<Row>, day: IsoDay, range: TimeRange)
    ensures range in OnDay(rows, day) <==> Row(day, range) in rows
  {
    if rows == [] {
    } else {
      OnDayMember(rows[..|rows| - 1], day, range);
      assert rows == rows[..|rows| - 1] + [rows[|rows| - 1]];
    }
  }

  lemma AsRowsMember(day: IsoDay, ranges: seq<TimeRange>, row: Row)
    ensures row in AsRows(day, ranges) <==> row.day == day && row.range in ranges
  {
    if row.day == day && row.range in ranges {
      var i :| 0 <= i < |ranges| && ranges[i] == row.range;
      assert AsRows(day, ranges)[i] == row;
    }
  }

  /** Regrouping keeps exactly the rows that name a weekday. */
  lemma RegroupedMember(rows: seq<Row>, row: Row)
    ensures row in Regrouped(rows) <==> row in rows && 1 <= row.day <= 7
  {
    forall d: IsoDay | 1 <= d <= 7 ensures row in AsRows(d, OnDay(rows, d)) <==> row.day == d && row in rows {
      AsRowsMember(d, OnDay(rows, d), row);
      OnDayMember(rows, d, row.range);
    }
  }

  /** Regrouping a schedule by day never changes whether it is open. */
  lemma RegroupingKeepsStatus(rows: seq<Row>, w: int)
    ensures OpenOnTheWeek(Regrouped(rows), w) <==> OpenOnTheWeek(rows, w)
  {
    if i :| 0 <= i < |rows| && InInterval(rows[i], w) {
      RegroupedMember(rows, rows[i]);
      var j :| 0 <= j < |Regrouped(rows)| && Regrouped(rows)[j] == rows[i];
    }
    forall row | row in Regrouped(rows) ensures row in rows {
      RegroupedMember(rows, row);
    }
    OrderDoesNotMatter(Regrouped(rows), rows, w);
  }
}
