/** Resolving destinations within a per-client budget: an answer the cache holds
    is free, anything else spends one unit before the provider is asked. */
module DestinationBudget {
  import opened Common
  import opened GeocodeCache

  /** One unit of `client`'s budget, stamped with the instant it was charged. */
  datatype Spend = Spend(client: string, at: Instant)

  /** A billable call, made at `at` on the strength of `spend`. */
  datatype ProviderCall = ProviderCall(spend: Spend, at: Instant)

  datatype LimiterReply = Allowed | OverLimit | LimiterError

  /** A charged request that has not reached the provider yet. `query` is present
      for `geocode`, which looks at the cache once more; the other two
      operations always go to the provider. */
  datatype Admitted = Admitted(spend: Spend, query: Option<string>)

  /** `asking` are the requests waiting for the provider, with the query whose
      answer is to be remembered, if any. */
  datatype Ledger = Ledger(
    cache: Cache,
    charges: seq<Spend>,
    calls: seq<ProviderCall>,
    admitted: seq<Admitted>,
    asking: seq<Option<string>>)

  const OPENING: Ledger := Ledger(EMPTY, [], [], [], [])

  datatype Outcome = Answered(answer: Answer) | OverBudget | Waiting

  // ---------------------------------------------------------------------------
  // Steps of concurrent requests
  // ---------------------------------------------------------------------------

  /** Requests interleave at their awaits: a request peeks and charges, calls the
      provider later and hears from it later still; or its caller goes away. */
  datatype Event =
    | AskGeocode(client: string, query: string, now: Instant, limiter: LimiterReply)
    | AskDirect(client: string, now: Instant, limiter: LimiterReply)
    | Proceed(index: nat, now: Instant)
    | Hear(index: nat, now: Instant, provider: Answer)
    | Abandon(index: nat)
    | HangUp(index: nat)

  function Charge(l: Ledger, spend: Spend, query: Option<string>, limiter: LimiterReply): (Ledger, Outcome) {
    if limiter == Allowed
    then (l.(charges := l.charges + [spend], admitted := l.admitted + [Admitted(spend, query)]), Waiting)
    else (l, OverBudget)
  }

  function Called(l: Ledger, spend: Spend, now: Instant, query: Option<string>): Ledger {
    l.(calls := l.calls + [ProviderCall(spend, now)], asking := l.asking + [query])
  }

  function Step(l: Ledger, config: Config, e: Event): (Ledger, Outcome) {
    match e
    case AskGeocode(client, query, now, limiter) =>
      (match Peek(l.cache, config, query, now)
       case Some(hit) => (l, Answered(Found(hit)))
       case None => Charge(l, Spend(client, now), Some(query), limiter))
    case AskDirect(client, now, limiter) => Charge(l, Spend(client, now), None, limiter)
    case Proceed(index, now) =>
      if index >= |l.admitted| then (l, Waiting)
      else
        var Admitted(spend, query) := l.admitted[index];
        var rest := l.(admitted := RemoveAt(l.admitted, index));
        if query.None? then (Called(rest, spend, now, None), Waiting)
        else
          (match Peek(l.cache, config, query.value, now)
           case Some(hit) => (rest, Answered(Found(hit)))
           case None => (Called(rest, spend, now, query), Waiting))
    case Hear(index, now, provider) =>
      if index >= |l.asking| then (l, Waiting)
      else
        var query := l.asking[index];
        var cache := if query.Some? then Settled(l.cache, config, query.value, now, provider) else l.cache;
        (l.(cache := cache, asking := RemoveAt(l.asking, index)), Answered(provider))
    case Abandon(index) =>
      (if index >= |l.admitted| then l else l.(admitted := RemoveAt(l.admitted, index)), Waiting)
    case HangUp(index) =>
      (if index >= |l.asking| then l else l.(asking := RemoveAt(l.asking, index)), Waiting)
  }

  function Run(config: Config, events: seq<Event>): Ledger {
    if events == [] then OPENING
    else Step(Run(config, events[..|events| - 1]), config, events[|events| - 1]).0
  }

  lemma RunNext(config: Config, events: seq<Event>, e: Event)
    ensures Run(config, events + [e]) == Step(Run(config, events), config, e).0
  {
    assert (events + [e])[..|events|] == events;
  }

  // ---------------------------------------------------------------------------
  // Calls never exceed charges
  // ---------------------------------------------------------------------------

  function CallsOf(counted: Spend -> bool): ProviderCall -> bool {
    (c: ProviderCall) => counted(c.spend)
  }

  function OwedTo(counted: Spend -> bool): Admitted -> bool {
    (a: Admitted) => counted(a.spend)
  }

  ghost predicate Covered(l: Ledger, counted: Spend -> bool) {
    Count(l.calls, CallsOf(counted)) + Count(l.admitted, OwedTo(counted)) <= Count(l.charges, counted)
  }

  /** Whatever spends are counted, the provider calls made and still owed are
      covered by charges, at every point of every interleaving. */
  lemma {:induction false} CallsAreCharged(config: Config, events: seq<Event>, counted: Spend -> bool)
    ensures var l := Run(config, events);
            Count(l.calls, CallsOf(counted)) + Count(l.admitted, OwedTo(counted)) <= Count(l.charges, counted)
  {
    if events == [] {
    } else {
      var e := events[|events| - 1];
      CallsAreCharged(config, events[..|events| - 1], counted);
      StepKeepsCovered(Run(config, events[..|events| - 1]), config, e, counted);
    }
  }

  lemma StepKeepsCovered(l: Ledger, config: Config, e: Event, counted: Spend -> bool)
    requires Covered(l, counted)
    ensures Covered(Step(l, config, e).0, counted)
  {
    match e
    case AskGeocode(client, query, now, limiter) =>
      ChargeKeepsCovered(l, Spend(client, now), Some(query), limiter, counted);
    case AskDirect(client, now, limiter) =>
      ChargeKeepsCovered(l, Spend(client, now), None, limiter, counted);
    case Proceed(index, now) =>
      if index < |l.admitted| {
        ProceedKeepsCovered(l, config, index, now, counted);
      }
    case Abandon(index) =>
      if index < |l.admitted| {
        CountRemoved(l.admitted, index, OwedTo(counted));
      }
    case _ =>
  }

  lemma ProceedKeepsCovered(l: Ledger, config: Config, index: nat, now: Instant, counted: Spend -> bool)
    requires Covered(l, counted) && index < |l.admitted|
    ensures Covered(Step(l, config, Proceed(index, now)).0, counted)
  {
    var spend, rest := l.admitted[index].spend, RemoveAt(l.admitted, index);
    var next := Step(l, config, Proceed(index, now)).0;
    assert next.admitted == rest && next.charges == l.charges;
    assert next.calls == l.calls || next.calls == l.calls + [ProviderCall(spend, now)];
    CountRemoved(l.admitted, index, OwedTo(counted));
    CountPush(l.calls, ProviderCall(spend, now), CallsOf(counted));
  }

  lemma ChargeKeepsCovered(l: Ledger, spend: Spend, query: Option<string>, limiter: LimiterReply,
                           counted: Spend -> bool)
    requires Covered(l, counted)
    ensures Covered(Charge(l, spend, query, limiter).0, counted)
  {
    CountPush(l.charges, spend, counted);
    CountPush(l.admitted, Admitted(spend, query), OwedTo(counted));
  }

  // ---------------------------------------------------------------------------
  // Calls per client and window
  // ---------------------------------------------------------------------------

  function Within(client: string, from: Instant, length: int): Spend -> bool {
    (s: Spend) => s.client == client && from <= s.at < from + length
  }

  function CalledWithin(client: string, from: Instant, length: int): ProviderCall -> bool {
    (c: ProviderCall) => c.spend.client == client && from <= c.at < from + length
  }

  /** The limiter port's promise: at most `perClient` allowed hits of one key in
      any stretch of `window`. */
  ghost predicate LimiterHolds(charges: seq<Spend>, perClient: nat, window: nat) {
    forall client, from :: Count(charges, Within(client, from, window)) <= perClient
  }

  /** Every call is made at most `delay` after it was charged. */
  ghost predicate Prompt(calls: seq<ProviderCall>, delay: nat) {
    forall i :: 0 <= i < |calls| ==> calls[i].spend.at <= calls[i].at <= calls[i].spend.at + delay
  }

  /** No client has more than `perClient` calls in any stretch of `length`. */
  ghost predicate CallsBounded(calls: seq<ProviderCall>, perClient: nat, length: nat) {
    forall client, from :: Count(calls, CalledWithin(client, from, length)) <= perClient
  }

  predicate Timed(e: Event) {
    e.AskGeocode? || e.AskDirect? || e.Proceed? || e.Hear?
  }

  predicate Monotone(events: seq<Event>) {
    forall i, j :: 0 <= i < j < |events| && Timed(events[i]) && Timed(events[j]) ==> events[i].now <= events[j].now
  }

  /** The calls of a stretch were charged in that stretch or up to `delay` before
      it, so a stretch that leaves room for the delay within the limiter's window
      has at most the budget. */
  lemma BudgetBoundsProviderCalls(config: Config, events: seq<Event>, perClient: nat, window: nat, delay: nat,
                                  length: nat)
    requires LimiterHolds(Run(config, events).charges, perClient, window) && Prompt(Run(config, events).calls, delay)
    requires length + delay <= window
    ensures CallsBounded(Run(config, events).calls, perClient, length)
  {
    var l := Run(config, events);
    forall client, from ensures Count(l.calls, CalledWithin(client, from, length)) <= perClient {
      var charged := Within(client, from - delay, window);
      CountGrows(l.calls, CalledWithin(client, from, length), CallsOf(charged));
      CallsAreCharged(config, events, charged);
      assert Count(l.charges, charged) <= perClient;
    }
  }

  /** In every run of a monotone clock, a limiter that keeps its promise bounds the
      calls of any stretch of `length`. */
  ghost predicate BudgetSuffices(config: Config, perClient: nat, window: nat, delay: nat, length: nat) {
    forall events {:trigger Run(config, events)} ::
      Monotone(events) && LimiterHolds(Run(config, events).charges, perClient, window) &&
      Prompt(Run(config, events).calls, delay) ==>
        CallsBounded(Run(config, events).calls, perClient, length)
  }

  /** Exactly how far the budget reaches: the stretch and the longest delay between
      charge and call must fit into the limiter's window together, unless nothing
      can be charged or the stretch is empty. */
  lemma BudgetSufficesExactly(config: Config, perClient: nat, window: nat, delay: nat, length: nat)
    ensures BudgetSuffices(config, perClient, window, delay, length) <==>
              length + delay <= window || length == 0 || (perClient == 0 && window > 0)
  {
    if length + delay <= window {
      forall events | LimiterHolds(Run(config, events).charges, perClient, window) &&
          Prompt(Run(config, events).calls, delay)
        ensures CallsBounded(Run(config, events).calls, perClient, length)
      {
        BudgetBoundsProviderCalls(config, events, perClient, window, delay, length);
      }
    } else if length == 0 || (perClient == 0 && window > 0) {
      forall events | LimiterHolds(Run(config, events).charges, perClient, window)
        ensures CallsBounded(Run(config, events).calls, perClient, length)
      {
        NothingToBound(config, events, perClient, window, length);
      }
    } else {
      var events := LateCalls(config, perClient, window, delay, length);
      assert !CallsBounded(Run(config, events).calls, perClient, length);
    }
  }

  lemma NothingToBound(config: Config, events: seq<Event>, perClient: nat, window: nat, length: nat)
    requires LimiterHolds(Run(config, events).charges, perClient, window)
    requires length == 0 || (perClient == 0 && window > 0)
    ensures CallsBounded(Run(config, events).calls, perClient, length)
  {
    var l := Run(config, events);
    forall client, from ensures Count(l.calls, CalledWithin(client, from, length)) <= perClient {
      if length == 0 {
        CountNone(l.calls, CalledWithin(client, from, length));
      } else {
        NoCharges(l.charges, window);
        CallsAreCharged(config, events, _ => true);
        CountGrows(l.calls, CalledWithin(client, from, length), CallsOf(_ => true));
      }
    }
  }

  lemma {:induction false} CountNone<T(!new)>(s: seq<T>, counted: T -> bool)
    requires forall x :: !counted(x)
    ensures Count(s, counted) == 0
  {
    if s == [] {
    } else {
      CountNone(s[..|s| - 1], counted);
    }
  }

  lemma LastIsCounted(charges: seq<Spend>, window: nat)
    requires charges != [] && window > 0
    ensures var last := charges[|charges| - 1]; Count(charges, Within(last.client, last.at, window)) >= 1
  {
  }

  /** A budget of nothing admits nothing. */
  lemma NoCharges(charges: seq<Spend>, window: nat)
    requires LimiterHolds(charges, 0, window) && window > 0
    ensures charges == []
  {
    if charges != [] {
      LastIsCounted(charges, window);
    }
  }

  // --- A run that exceeds the budget --------------------------------------------

  const ANYONE: string := "client"

  lemma {:induction false} AfterAsking(config: Config, n: nat)
    ensures var spend := Spend(ANYONE, 0);
            Run(config, Repeat(AskDirect(ANYONE, 0, Allowed), n)) ==
              Ledger(EMPTY, Repeat(spend, n), [], Repeat(Admitted(spend, None), n), [])
  {
    if n == 0 {
    } else {
      AfterAsking(config, n - 1);
      RunNext(config, Repeat(AskDirect(ANYONE, 0, Allowed), n - 1), AskDirect(ANYONE, 0, Allowed));
    }
  }

  /** `n` units charged, `k` of them called. */
  function PartlyCalled(n: nat, k: nat, at: Instant): Ledger
    requires k <= n
  {
    var spend := Spend(ANYONE, 0);
    Ledger(EMPTY, Repeat(spend, n), Repeat(ProviderCall(spend, at), k), Repeat(Admitted(spend, None), n - k),
        Repeat(None, k))
  }

  lemma OneMoreCalled(config: Config, n: nat, k: nat, at: Instant)
    requires k < n
    ensures Step(PartlyCalled(n, k, at), config, Proceed(0, at)).0 == PartlyCalled(n, k + 1, at)
  {
    var owed := Repeat(Admitted(Spend(ANYONE, 0), None), n - k);
    assert RemoveAt(owed, 0) == Repeat(Admitted(Spend(ANYONE, 0), None), n - k - 1);
  }

  lemma {:induction false} AfterCalling(config: Config, n: nat, k: nat, at: Instant)
    requires k <= n
    ensures Run(config, Repeat(AskDirect(ANYONE, 0, Allowed), n) + Repeat(Proceed(0, at), k)) == PartlyCalled(n, k, at)
  {
    var asks := Repeat(AskDirect(ANYONE, 0, Allowed), n);
    if k == 0 {
      assert asks + Repeat(Proceed(0, at), 0) == asks;
      AfterAsking(config, n);
    } else {
      AfterCalling(config, n, k - 1, at);
      var before := asks + Repeat(Proceed(0, at), k - 1);
      assert asks + Repeat(Proceed(0, at), k) == before + [Proceed(0, at)];
      RunNext(config, before, Proceed(0, at));
      OneMoreCalled(config, n, k - 1, at);
    }
  }

  function LateCharges(n: nat, window: nat): seq<Spend> {
    Repeat(Spend(ANYONE, 0), n) + [Spend(ANYONE, window)]
  }

  lemma LateChargesAreAllowed(n: nat, window: nat)
    requires n > 0 || window == 0
    ensures LimiterHolds(LateCharges(n, window), n, window)
  {
    var first, last := Spend(ANYONE, 0), Spend(ANYONE, window);
    forall client, from ensures Count(LateCharges(n, window), Within(client, from, window)) <= n {
      var counted := Within(client, from, window);
      CountRepeat(first, n, counted);
      CountPush(Repeat(first, n), last, counted);
      assert !(counted(first) && counted(last));
      assert window == 0 ==> !counted(last);
    }
  }

  function LateProviderCalls(n: nat, window: nat, at: Instant): seq<ProviderCall> {
    Repeat(ProviderCall(Spend(ANYONE, 0), at), n) + [ProviderCall(Spend(ANYONE, window), window)]
  }

  lemma LateCallsArePrompt(n: nat, window: nat, at: Instant, delay: nat)
    requires 0 <= at <= delay
    ensures Prompt(LateProviderCalls(n, window, at), delay)
  {
  }

  lemma LateCallsExceed(n: nat, window: nat, at: Instant, length: nat)
    requires length > 0 && at <= window < at + length
    ensures !CallsBounded(LateProviderCalls(n, window, at), n, length)
  {
    var early, late := ProviderCall(Spend(ANYONE, 0), at), ProviderCall(Spend(ANYONE, window), window);
    var counted := CalledWithin(ANYONE, at, length);
    CountRepeat(early, n, counted);
    CountPush(Repeat(early, n), late, counted);
    assert counted(early) && counted(late);
    assert Count(LateProviderCalls(n, window, at), counted) == n + 1;
  }

  lemma LateRun(config: Config, n: nat, window: nat, at: Instant) returns (events: seq<Event>)
    requires 0 <= at <= window
    ensures Monotone(events)
    ensures Run(config, events).charges == LateCharges(n, window)
    ensures Run(config, events).calls == LateProviderCalls(n, window, at)
  {
    var early := Repeat(AskDirect(ANYONE, 0, Allowed), n) + Repeat(Proceed(0, at), n);
    var ask, call := AskDirect(ANYONE, window, Allowed), Proceed(0, window);
    AfterCalling(config, n, n, at);
    RunNext(config, early, ask);
    assert Run(config, early).admitted == [];
    RunNext(config, early + [ask], call);
    events := early + [ask] + [call];
  }

  /** Charged early and called late: a whole budget charged at once and called just
      within the delay, and one more charged as soon as the limiter allows. */
  lemma LateCalls(config: Config, perClient: nat, window: nat, delay: nat, length: nat) returns (events: seq<Event>)
    requires length > 0 && window < length + delay && (perClient > 0 || window == 0)
    ensures Monotone(events)
    ensures LimiterHolds(Run(config, events).charges, perClient, window)
    ensures Prompt(Run(config, events).calls, delay)
    ensures !CallsBounded(Run(config, events).calls, perClient, length)
  {
    var at := if delay < window then delay else window;
    events := LateRun(config, perClient, window, at);
    LateChargesAreAllowed(perClient, window);
    LateCallsArePrompt(perClient, window, at, delay);
    LateCallsExceed(perClient, window, at, length);
  }

  // ---------------------------------------------------------------------------
  // The service, one request at a time
  // ---------------------------------------------------------------------------

  /** When the request is admitted, when it calls, and when it hears. */
  datatype Times = Times(asked: Instant, called: Instant, heard: Instant)

  /** The three steps of a `geocode` that nobody comes between. */
  lemma GeocodeAlone(l: Ledger, config: Config, client: string, query: string, times: Times, provider: Answer)
    requires l.admitted == [] && l.asking == [] && Peek(l.cache, config, query, times.asked).None?
    ensures var spend := Spend(client, times.asked);
            var charged := l.(charges := l.charges + [spend]);
            var admitted := charged.(admitted := [Admitted(spend, Some(query))]);
            var called := charged.(calls := l.calls + [ProviderCall(spend, times.called)]);
            var held := Peek(l.cache, config, query, times.called);
            && Step(l, config, AskGeocode(client, query, times.asked, Allowed)) == (admitted, Waiting)
            && Step(admitted, config, Proceed(0, times.called)) ==
                 (if held.Some? then (charged, Answered(Found(held.value)))
                   else (called.(asking := [Some(query)]), Waiting))
            && Step(called.(asking := [Some(query)]), config, Hear(0, times.heard, provider)) ==
                 (called.(cache := Settled(l.cache, config, query, times.heard, provider)), Answered(provider))
  {
    var owed := [Admitted(Spend(client, times.asked), Some(query))];
    assert l.admitted + owed == owed && RemoveAt(owed, 0) == l.admitted;
    assert l.asking + [Some(query)] == [Some(query)] && RemoveAt([Some(query)], 0) == l.asking;
  }

  class ResolveDestination {
    const geocoder: CachingGeocoder
    var charges: seq<Spend>
    var calls: seq<ProviderCall>

    ghost function View(): Ledger
      reads this, geocoder
    {
      Ledger(geocoder.View(), charges, calls, [], [])
    }

    constructor (geocoder: CachingGeocoder)
      requires geocoder.View() == EMPTY
      ensures this.geocoder == geocoder && View() == OPENING
    {
      this.geocoder := geocoder;
      charges, calls := [], [];
    }

    /** Anything but `Ok(true)` counts as over budget. */
    method Spends(client: string, now: Instant, limiter: LimiterReply) returns (ok: bool)
      modifies this
      ensures ok == (limiter == Allowed)
      ensures calls == old(calls)
      ensures charges == if ok then old(charges) + [Spend(client, now)] else old(charges)
    {
      ok := limiter == Allowed;
      if ok {
        charges := charges + [Spend(client, now)];
      }
    }

    /** An uninterrupted request is its steps in a row; a held answer leaves every
        counter alone, and a refusal never reaches the provider. */
    method GeocodeQuery(client: string, query: string, times: Times, limiter: LimiterReply, provider: Answer)
      returns (r: Outcome)
      modifies this, geocoder
      ensures var config := geocoder.config;
              var asked := Step(old(View()), config, AskGeocode(client, query, times.asked, limiter));
              var called := if asked.1 == Waiting then Step(asked.0, config, Proceed(0, times.called)) else asked;
              (View(), r) == if called.1 == Waiting then Step(called.0, config, Hear(0, times.heard, provider))
                else called
      ensures Peek(old(geocoder.View()), geocoder.config, query, times.asked).Some? ==> View() == old(View())
      ensures r.OverBudget? ==> View() == old(View())
    {
      var held := geocoder.PeekHit(query, times.asked);
      if held.Some? {
        return Answered(Found(held.value));
      }
      var ok := Spends(client, times.asked, limiter);
      if !ok {
        return OverBudget;
      }
      GeocodeAlone(old(View()), geocoder.config, client, query, times, provider);
      var answer, asked := geocoder.Geocode(query, times.called, times.heard, provider);
      if asked {
        calls := calls + [ProviderCall(Spend(client, times.asked), times.called)];
      }
      return Answered(answer);
    }

    /** `suggest` and `resolve_suggestion`: always charged, then always asked. */
    method AskProvider(client: string, times: Times, limiter: LimiterReply, provider: Answer) returns (r: Outcome)
      modifies this
      ensures var config := geocoder.config;
              var asked := Step(old(View()), config, AskDirect(client, times.asked, limiter));
              (View(), r) ==
                if asked.1 == Waiting
                then Step(Step(asked.0, config, Proceed(0, times.called)).0, config, Hear(0, times.heard, provider))
                else asked
    {
      var ok := Spends(client, times.asked, limiter);
      if !ok {
        return OverBudget;
      }
      ghost var admitted := [Admitted(Spend(client, times.asked), None)];
      ghost var asking: seq<Option<string>> := [] + [None];
      assert RemoveAt([] + admitted, 0) == [] && RemoveAt(asking, 0) == [];
      calls := calls + [ProviderCall(Spend(client, times.asked), times.called)];
      return Answered(provider);
    }
  }
}
