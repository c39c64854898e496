/** How the age of a verification becomes a freshness, and a location's existence
    signals a confidence. */
module Freshness {
  import opened Common

  datatype Thresholds = Thresholds(freshDays: int, recentDays: int, agingDays: int, staleDays: int)

  datatype Category = Fresh | RecentlyVerified | Aging | Stale | VeryStale | Never

  datatype Existence = StillExists | NoLongerExists | InfoChanged

  datatype Signal = Signal(user: nat, result: Existence, at: int)

  datatype Confidence = Reported | Recent | Verified | Outdated | Conflicting

  /** Instants are in nanoseconds. */
  const DAY: int := 86_400_000_000_000

  /** Whole days, rounded toward zero. */
  function NumDays(elapsed: int): int {
    if elapsed >= 0 then elapsed / DAY else -(-elapsed / DAY)
  }

  function Categorize(verified: Option<int>, now: int, t: Thresholds): Category {
    if verified.None? then Never
    else
      var days := if NumDays(now - verified.value) > 0 then NumDays(now - verified.value) else 0;
      if days < t.freshDays then Fresh
      else if days < t.recentDays then RecentlyVerified
      else if days < t.agingDays then Aging
      else if days < t.staleDays then Stale
      else VeryStale
  }

  function Age(c: Category): nat {
    match c
    case Fresh => 0 case RecentlyVerified => 1 case Aging => 2 case Stale => 3 case VeryStale => 4 case Never => 5
  }

  lemma DaysGrow(earlier: int, later: int)
    requires earlier <= later
    ensures NumDays(earlier) <= NumDays(later)
  {
  }

  /** Freshness never improves with time, however the thresholds are ordered. */
  lemma FreshnessDecays(verified: Option<int>, now: int, later: int, t: Thresholds)
    requires now <= later
    ensures Age(Categorize(verified, now, t)) <= Age(Categorize(verified, later, t))
  {
    if verified.Some? {
      DaysGrow(now - verified.value, later - verified.value);
    }
  }

  /** A later verification is never less fresh. */
  lemma LaterIsFresher(verified: int, later: int, now: int, t: Thresholds)
    requires verified <= later
    ensures Age(Categorize(Some(later), now, t)) <= Age(Categorize(Some(verified), now, t))
  {
    DaysGrow(now - later, now - verified);
  }

  // ---------------------------------------------------------------------------
  // Confidence
  // ---------------------------------------------------------------------------

  predicate AnyGone(signals: seq<Signal>) {
    exists i :: 0 <= i < |signals| && signals[i].result == NoLongerExists
  }

  /** When the latest signal that the place still exists was given. */
  function Latest(signals: seq<Signal>): Option<int> {
    if signals == [] then None
    else
      var rest, first := Latest(signals[1..]), signals[0];
      if first.result == StillExists && (rest.None? || rest.value < first.at) then Some(first.at) else rest
  }

  function FromCategory(c: Category): Confidence {
    match c
    case Fresh => Recent
    case RecentlyVerified => Verified
    case Aging => Verified
    case Stale => Outdated
    case VeryStale => Outdated
    case Never => Reported
  }

  function ConfidenceOf(signals: seq<Signal>, now: int, t: Thresholds): Confidence {
    if signals == [] then Reported
    else if AnyGone(signals) then Conflicting
    else
      var latest := Latest(signals);
      if latest.None? then Reported else FromCategory(Categorize(latest, now, t))
  }

  /** `at` is when the latest of the confirmations among `signals` was given. */
  ghost predicate IsLatest(signals: seq<Signal>, at: int) {
    && (exists s :: s in signals && s.result == StillExists && s.at == at)
    && (forall s :: s in signals && s.result == StillExists ==> s.at <= at)
  }

  lemma {:induction false} LatestIsLatest(signals: seq<Signal>)
    ensures Latest(signals).Some? ==> IsLatest(signals, Latest(signals).value)
    ensures Latest(signals).None? ==> forall s :: s in signals ==> s.result != StillExists
  {
    if signals == [] {
    } else {
      var first, rest := signals[0], signals[1..];
      LatestIsLatest(rest);
      assert signals == [first] + rest;
      if Latest(signals) == Latest(rest) && Latest(rest).Some? {
        var s :| s in rest && s.result == StillExists && s.at == Latest(rest).value;
        assert s in signals;
      } else if Latest(signals).Some? {
        assert first in signals;
      }
    }
  }

  /** What confidence means: conflicting if and only if somebody says the place is
      gone; merely reported if and only if nobody says either; and otherwise what
      the latest confirmation's age makes of it. */
  lemma ConfidenceMeans(signals: seq<Signal>, now: int, t: Thresholds)
    ensures var c := ConfidenceOf(signals, now, t);
            var gone := exists s :: s in signals && s.result == NoLongerExists;
            var confirmed := exists s :: s in signals && s.result == StillExists;
            && (c == Conflicting <==> gone)
            && (c == Reported <==> !gone && !confirmed)
            && (!gone ==> forall at | IsLatest(signals, at) :: c == FromCategory(Categorize(Some(at), now, t)))
  {
    LatestIsLatest(signals);
    assert forall i :: 0 <= i < |signals| ==> signals[i] in signals;
  }

  /** Neither the order of the signals nor their repetition matters. */
  lemma OrderDoesNotMatter(signals: seq<Signal>, others: seq<Signal>, now: int, t: Thresholds)
    requires forall s :: s in signals <==> s in others
    ensures ConfidenceOf(signals, now, t) == ConfidenceOf(others, now, t)
  {
    ConfidenceMeans(signals, now, t);
    ConfidenceMeans(others, now, t);
    LatestIsLatest(signals);
    LatestIsLatest(others);
    if Latest(signals).Some? {
      assert IsLatest(others, Latest(signals).value);
    }
  }

  function Loss(c: Confidence): nat {
    match c
    case Recent => 0 case Verified => 1 case Outdated => 2 case Reported => 3 case Conflicting => 4
  }

  lemma CategoryLoss(c: Category, d: Category)
    requires Age(c) <= Age(d)
    ensures Loss(FromCategory(c)) <= Loss(FromCategory(d))
  {
  }

  /** Over the same signals confidence only decays. */
  lemma ConfidenceDecays(signals: seq<Signal>, now: int, later: int, t: Thresholds)
    requires now <= later
    ensures Loss(ConfidenceOf(signals, now, t)) <= Loss(ConfidenceOf(signals, later, t))
  {
    FreshnessDecays(Latest(signals), now, later, t);
    CategoryLoss(Categorize(Latest(signals), now, t), Categorize(Latest(signals), later, t));
  }

  /** A confirmation never lowers it. */
  lemma ConfirmationHelps(signals: seq<Signal>, s: Signal, now: int, t: Thresholds)
    requires s.result == StillExists
    ensures Loss(ConfidenceOf(signals + [s], now, t)) <= Loss(ConfidenceOf(signals, now, t))
  {
    var more := signals + [s];
    ConfidenceMeans(signals, now, t);
    ConfidenceMeans(more, now, t);
    LatestIsLatest(signals);
    LatestIsLatest(more);
    assert s in more;
    if Latest(signals).Some? {
      assert Latest(signals).value <= Latest(more).value;
      LaterIsFresher(Latest(signals).value, Latest(more).value, now, t);
      CategoryLoss(Categorize(Latest(more), now, t), Categorize(Latest(signals), now, t));
    }
  }
}
