/** The bounded geocode cache: a map of resolutions and a queue of keys, kept in
    step by `remember`, read by `peek`, and combined by `geocode`. */
module GeocodeCache {
  import opened Common

  /** A monotonic-clock reading. */
  type Instant = int

  type Point = (real, real)

  datatype GeoHit = GeoHit(caption: string, point: Point)

  datatype Entry = Entry(hit: GeoHit, at: Instant)

  /** The state behind the mutex: resolutions by normalized query, and the keys
      in the order the bound evicts them. */
  datatype Cache = Cache(hits: map<string, Entry>, order: seq<string>)

  const EMPTY: Cache := Cache(map[], [])

  datatype Config = Config(normalize: string -> string, ttl: nat, capacity: nat)

  // ---------------------------------------------------------------------------
  // Operations on cache values
  // ---------------------------------------------------------------------------

  function Evict(c: Cache, capacity: nat): Cache
    decreases |c.order|
  {
    if |c.order| <= capacity then c
    else Evict(Cache(c.hits - {c.order[0]}, c.order[1..]), capacity)
  }

  function Remember(c: Cache, capacity: nat, key: string, hit: GeoHit, now: Instant): Cache {
    if capacity == 0 then c
    else
      var kept := if key in c.hits then WithoutFirst(c.order, key) else c.order;
      Evict(Cache(c.hits[key := Entry(hit, now)], kept + [key]), capacity)
  }

  /** `Instant::elapsed` saturates at zero. */
  function Elapsed(at: Instant, now: Instant): nat {
    if now < at then 0 else now - at
  }

  function Peek(c: Cache, config: Config, query: string, now: Instant): Option<GeoHit> {
    var key := config.normalize(query);
    if config.capacity == 0 || key !in c.hits then None
    else if Elapsed(c.hits[key].at, now) < config.ttl then Some(c.hits[key].hit)
    else None
  }

  // ---------------------------------------------------------------------------
  // The mutable cache, proved against those operations
  // ---------------------------------------------------------------------------

  datatype Answer = Found(hit: GeoHit) | Missed | Failed

  class CachingGeocoder {
    const config: Config
    var hits: map<string, Entry>
    var order: seq<string>

    ghost function View(): Cache
      reads this
    {
      Cache(hits, order)
    }

    constructor (config: Config)
      ensures this.config == config
      ensures View() == EMPTY
    {
      this.config := config;
      hits, order := map[], [];
    }

    method Position(key: string) returns (at: Option<nat>)
      ensures at.Some? ==> at.value < |order| && WithoutFirst(order, key) == order[..at.value] + order[at.value + 1..]
      ensures at.None? ==> WithoutFirst(order, key) == order
    {
      var i := 0;
      while i < |order|
        invariant i <= |order|
        invariant WithoutFirst(order, key) == order[..i] + WithoutFirst(order[i..], key)
      {
        if order[i] == key {
          return Some(i);
        }
        assert order[..i] + [order[i]] == order[..i + 1];
        i := i + 1;
      }
      assert order[..i] + [] == order;
      return None;
    }

    method RememberHit(query: string, hit: GeoHit, now: Instant)
      modifies this
      ensures View() == Remember(old(View()), config.capacity, config.normalize(query), hit, now)
    {
      if config.capacity == 0 {
        return;
      }
      var key := config.normalize(query);
      var refreshed := key in hits;
      hits := hits[key := Entry(hit, now)];
      if refreshed {
        var at := Position(key);
        if at.Some? {
          order := order[..at.value] + order[at.value + 1..];
        }
      }
      order := order + [key];
      ghost var full := View();
      while |order| > config.capacity
        invariant Evict(View(), config.capacity) == Evict(full, config.capacity)
      {
        var oldest := order[0];
        order := order[1..];
        hits := hits - {oldest};
      }
    }

    method PeekHit(query: string, now: Instant) returns (held: Option<GeoHit>)
      ensures held == Peek(View(), config, query, now)
    {
      if config.capacity == 0 {
        return None;
      }
      var key := config.normalize(query);
      if key !in hits {
        return None;
      }
      var entry := hits[key];
      held := if Elapsed(entry.at, now) < config.ttl then Some(entry.hit) else None;
    }

    /** What the provider answered is passed on, and remembered if it is a hit. */
    method SettleAnswer(query: string, now: Instant, provider: Answer)
      modifies this
      ensures View() == Settled(old(View()), config, query, now, provider)
    {
      if provider.Found? {
        RememberHit(query, provider.hit, now);
      }
    }

    /** A request nobody comes between: `provider` is what the wrapped geocoder
        answers at `later` if it is asked, and `asked` tells whether it was. */
    method Geocode(query: string, now: Instant, later: Instant, provider: Answer) returns (answer: Answer, asked: bool)
      modifies this
      ensures asked == Peek(old(View()), config, query, now).None?
      ensures answer == if asked then provider else Found(Peek(old(View()), config, query, now).value)
      ensures View() == if asked then Settled(old(View()), config, query, later, provider) else old(View())
      ensures var looked := Serve(Traffic(old(View()), [], []), config, LookUp(query, now));
              var served := if asked then Serve(looked, config, Settle(0, later, provider)) else looked;
              served == Traffic(View(), [], [Reply(query, answer)])
    {
      var held := PeekHit(query, now);
      if held.Some? {
        return Found(held.value), false;
      }
      SettleAnswer(query, later, provider);
      return provider, true;
    }
  }

  // ---------------------------------------------------------------------------
  // Eviction order: the last `capacity` distinct keys
  // ---------------------------------------------------------------------------

  datatype Resolution = Resolution(key: string, hit: GeoHit, at: Instant)

  /** The cache after `remember` was called once per log entry, oldest first. */
  function Replay(capacity: nat, log: seq<Resolution>): Cache {
    if log == [] then EMPTY
    else
      var last := log[|log| - 1];
      Remember(Replay(capacity, log[..|log| - 1]), capacity, last.key, last.hit, last.at)
  }

  /** The distinct keys of a log, ordered by their most recent entry: an entry
      whose key comes again later contributes nothing. */
  function ByRecency(log: seq<Resolution>): seq<string> {
    if log == [] then []
    else if exists i :: 1 <= i < |log| && log[i].key == log[0].key then ByRecency(log[1..])
    else [log[0].key] + ByRecency(log[1..])
  }

  /** The most recent log entry for `key`. */
  function Latest(log: seq<Resolution>, key: string): Option<Resolution> {
    if log == [] then None
    else if log[|log| - 1].key == key then Some(log[|log| - 1])
    else Latest(log[..|log| - 1], key)
  }

  function Except<T(==)>(s: seq<T>, x: T): seq<T> {
    if s == [] then []
    else if s[0] == x then Except(s[1..], x)
    else [s[0]] + Except(s[1..], x)
  }

  lemma {:induction false} ExceptConcat<T>(a: seq<T>, b: seq<T>, x: T)
    ensures Except(a + b, x) == Except(a, x) + Except(b, x)
  {
    if a == [] {
      assert a + b == b;
    } else {
      ExceptConcat(a[1..], b, x);
      assert (a + b)[1..] == a[1..] + b && (a + b)[0] == a[0];
      assert a[0] != x ==> [a[0]] + (Except(a[1..], x) + Except(b, x)) == ([a[0]] + Except(a[1..], x)) + Except(b, x);
    }
  }

  lemma {:induction false} ExceptAbsent<T>(s: seq<T>, x: T)
    requires x !in s
    ensures Except(s, x) == s
  {
    if s == [] {
    } else {
      ExceptAbsent(s[1..], x);
    }
  }

  lemma {:induction false} ExceptMembers<T>(s: seq<T>, x: T, k: T)
    ensures k in Except(s, x) <==> k in s && k != x
  {
    if s == [] {
    } else {
      ExceptMembers(s[1..], x, k);
      assert s == [s[0]] + s[1..];
    }
  }

  /** On a queue without repeats, removing the first occurrence removes the key. */
  lemma {:induction false} WithoutFirstIsExcept<T>(s: seq<T>, x: T)
    requires NoDuplicates(s)
    ensures WithoutFirst(s, x) == Except(s, x)
    ensures |Except(s, x)| == if x in s then |s| - 1 else |s|
  {
    if s == [] {
    } else {
      assert NoDuplicates(s[1..]);
      if s[0] == x {
        assert x !in s[1..];
        ExceptAbsent(s[1..], x);
      } else {
        WithoutFirstIsExcept(s[1..], x);
        assert s == [s[0]] + s[1..];
      }
    }
  }

  lemma {:induction false} ByRecencyMembers(log: seq<Resolution>, k: string)
    ensures k in ByRecency(log) <==> exists i :: 0 <= i < |log| && log[i].key == k
  {
    if log == [] {
    } else {
      ByRecencyMembers(log[1..], k);
      var rest := log[1..];
      assert (exists i :: 0 <= i < |log| && log[i].key == k) <==>
             log[0].key == k || exists i :: 0 <= i < |rest| && rest[i].key == k by {
        if i :| 0 <= i < |log| && log[i].key == k && i > 0 {
          assert rest[i - 1].key == k;
        }
        if j :| 0 <= j < |rest| && rest[j].key == k {
          assert log[j + 1].key == k;
        }
      }
      if exists i :: 1 <= i < |log| && log[i].key == log[0].key {
        var i :| 1 <= i < |log| && log[i].key == log[0].key;
        assert rest[i - 1].key == log[0].key;
      }
    }
  }

  lemma {:induction false} ByRecencyDistinct(log: seq<Resolution>)
    ensures NoDuplicates(ByRecency(log))
  {
    if log == [] {
    } else {
      ByRecencyDistinct(log[1..]);
      if !exists i :: 1 <= i < |log| && log[i].key == log[0].key {
        ByRecencyMembers(log[1..], log[0].key);
        assert forall i :: 0 <= i < |log[1..]| ==> log[1..][i] == log[i + 1];
      }
    }
  }

  /** One more entry moves its key to the back and changes nothing else. */
  lemma {:induction false} ByRecencyAppend(log: seq<Resolution>, r: Resolution)
    ensures ByRecency(log + [r]) == Except(ByRecency(log), r.key) + [r.key]
  {
    var all := log + [r];
    if log == [] {
      assert all[1..] == [];
    } else {
      ByRecencyAppend(log[1..], r);
      assert all[1..] == log[1..] + [r];
      assert (exists i :: 1 <= i < |all| && all[i].key == all[0].key) <==>
             (exists i :: 1 <= i < |log| && log[i].key == log[0].key) || r.key == log[0].key by {
        if r.key == log[0].key {
          assert all[|log|].key == all[0].key;
        }
        if i :| 1 <= i < |log| && log[i].key == log[0].key {
          assert all[i].key == all[0].key;
        }
      }
      var first := ByRecency(log);
      if !exists i :: 1 <= i < |log| && log[i].key == log[0].key {
        assert first == [log[0].key] + ByRecency(log[1..]);
        assert first[1..] == ByRecency(log[1..]);
      }
    }
  }

  lemma {:induction false} EvictKeepsLast(c: Cache, capacity: nat)
    requires NoDuplicates(c.order)
    requires forall k :: k in c.hits <==> k in c.order
    ensures var e := Evict(c, capacity);
            && e.order == TakeLast(c.order, capacity)
            && (forall k :: k in e.hits <==> k in e.order)
            && (forall k :: k in e.hits ==> k in c.hits && e.hits[k] == c.hits[k])
    decreases |c.order|
  {
    if |c.order| > capacity {
      var next := Cache(c.hits - {c.order[0]}, c.order[1..]);
      assert forall k :: k in c.order <==> k == c.order[0] || k in c.order[1..] by {
        assert c.order == [c.order[0]] + c.order[1..];
      }
      EvictKeepsLast(next, capacity);
    }
  }

  lemma LatestAppend(log: seq<Resolution>, r: Resolution, k: string)
    ensures Latest(log + [r], k) == if r.key == k then Some(r) else Latest(log, k)
  {
    assert (log + [r])[..|log|] == log;
  }

  /** What the cache holds, in terms of the log alone. */
  ghost predicate HoldsLatest(c: Cache, capacity: nat, log: seq<Resolution>) {
    && c.order == TakeLast(ByRecency(log), capacity)
    && (forall k :: k in c.hits <==> k in c.order)
    && (forall k :: k in c.hits ==>
          && Latest(log, k).Some?
          && c.hits[k] == Entry(Latest(log, k).value.hit, Latest(log, k).value.at))
  }

  /** Removing a kept key from the queue, or leaving a queue that lacks it, and
      then pushing it, gives the queue of the longer log before eviction. */
  lemma PushedQueueIsRecent<T>(recent: seq<T>, capacity: nat, key: T)
    requires capacity > 0 && NoDuplicates(recent)
    ensures var order := TakeLast(recent, capacity);
            TakeLast(WithoutFirst(order, key) + [key], capacity) == TakeLast(Except(recent, key) + [key], capacity)
  {
    var order := TakeLast(recent, capacity);
    var gone := recent[..|recent| - |order|];
    assert recent == gone + order;
    assert NoDuplicates(order);
    WithoutFirstIsExcept(order, key);
    ExceptConcat(gone, order, key);
    var kept := Except(order, key);
    if |order| < capacity {
      assert gone == [] && Except(recent, key) == kept;
    } else {
      LastOfPushed(Except(gone, key), kept, key, capacity);
    }
  }

  lemma PushedQueueMembers<T>(order: seq<T>, key: T)
    requires NoDuplicates(order)
    ensures key !in order ==> WithoutFirst(order, key) == order
    ensures NoDuplicates(WithoutFirst(order, key) + [key])
    ensures forall k :: k in WithoutFirst(order, key) + [key] <==> k in order || k == key
  {
    WithoutFirstIsExcept(order, key);
    ExceptDistinct(order, key);
    if key !in order {
      ExceptAbsent(order, key);
    }
    forall k ensures k in Except(order, key) <==> k in order && k != key {
      ExceptMembers(order, key, k);
    }
  }

  lemma LastOfPushed<T>(gone: seq<T>, kept: seq<T>, key: T, capacity: nat)
    requires 0 < capacity <= |kept| + 1
    ensures TakeLast(kept + [key], capacity) == TakeLast(gone + kept + [key], capacity)
  {
  }

  lemma {:induction false} ExceptDistinct<T>(s: seq<T>, x: T)
    requires NoDuplicates(s)
    ensures NoDuplicates(Except(s, x))
  {
    if s == [] {
    } else {
      ExceptDistinct(s[1..], x);
      ExceptMembers(s[1..], x, s[0]);
      assert s[0] !in s[1..];
    }
  }

  /** `remember` takes the cache of a log to the cache of the log with one more
      entry. */
  lemma RememberExtends(c: Cache, capacity: nat, log: seq<Resolution>, r: Resolution)
    requires capacity > 0 && HoldsLatest(c, capacity, log)
    ensures HoldsLatest(Remember(c, capacity, r.key, r.hit, r.at), capacity, log + [r])
  {
    ByRecencyDistinct(log);
    ByRecencyAppend(log, r);
    PushedQueueIsRecent(ByRecency(log), capacity, r.key);
    assert NoDuplicates(c.order);
    PushedQueueMembers(c.order, r.key);
    var queue := WithoutFirst(c.order, r.key) + [r.key];
    var full := Cache(c.hits[r.key := Entry(r.hit, r.at)], queue);
    EvictKeepsLast(full, capacity);
    var after := Evict(full, capacity);
    assert after == Remember(c, capacity, r.key, r.hit, r.at);
    forall k | k in after.hits
      ensures Latest(log + [r], k).Some?
      ensures after.hits[k] == Entry(Latest(log + [r], k).value.hit, Latest(log + [r], k).value.at)
    {
      LatestAppend(log, r, k);
    }
  }

  /** After any sequence of `remember` calls the queue is exactly the last
      `capacity` distinct keys, oldest resolution first; the map holds the same
      keys, each with its latest resolution. */
  lemma {:induction false} CacheHoldsLastDistinctKeys(capacity: nat, log: seq<Resolution>)
    ensures HoldsLatest(Replay(capacity, log), capacity, log)
  {
    if log == [] {
    } else {
      var before, r := log[..|log| - 1], log[|log| - 1];
      CacheHoldsLastDistinctKeys(capacity, before);
      assert log == before + [r];
      if capacity > 0 {
        RememberExtends(Replay(capacity, before), capacity, before, r);
      }
    }
  }

  /** The queue never repeats a key, and the map never outgrows the bound. */
  lemma CacheIsBounded(capacity: nat, log: seq<Resolution>)
    ensures NoDuplicates(Replay(capacity, log).order)
    ensures |Replay(capacity, log).hits| == |Replay(capacity, log).order| <= capacity
  {
    CacheHoldsLastDistinctKeys(capacity, log);
    ByRecencyDistinct(log);
    var c := Replay(capacity, log);
    assert c.hits.Keys == set k | k in c.order;
    DistinctCount(c.order);
  }

  lemma {:induction false} DistinctCount<T>(s: seq<T>)
    requires NoDuplicates(s)
    ensures |set k | k in s| == |s|
  {
    if s == [] {
    } else {
      DistinctCount(s[1..]);
      assert (set k | k in s) == {s[0]} + set k | k in s[1..];
    }
  }

  ghost predicate MonotoneClock(log: seq<Resolution>) {
    forall i, j :: 0 <= i <= j < |log| ==> log[i].at <= log[j].at
  }

  ghost predicate SortedByLatest(log: seq<Resolution>, keys: seq<string>) {
    && (forall i :: 0 <= i < |keys| ==> Latest(log, keys[i]).Some?)
    && forall i, j :: 0 <= i < j < |keys| ==>
         Latest(log, keys[i]).value.at <= Latest(log, keys[j]).value.at
  }

  lemma {:induction false} LatestBounded(log: seq<Resolution>, k: string)
    requires MonotoneClock(log) && Latest(log, k).Some?
    ensures Latest(log, k).value.at <= log[|log| - 1].at
  {
    if log[|log| - 1].key != k {
      LatestBounded(log[..|log| - 1], k);
    }
  }

  lemma {:induction false} ExceptSorted(log: seq<Resolution>, keys: seq<string>, x: string)
    requires SortedByLatest(log, keys)
    ensures SortedByLatest(log, Except(keys, x))
  {
    if keys == [] {
    } else {
      assert forall i :: 0 <= i < |keys[1..]| ==> keys[1..][i] == keys[i + 1];
      ExceptSorted(log, keys[1..], x);
      var rest := Except(keys[1..], x);
      forall i | 0 <= i < |rest| ensures Latest(log, keys[0]).value.at <= Latest(log, rest[i]).value.at {
        ExceptMembers(keys[1..], x, rest[i]);
        var j :| 0 <= j < |keys[1..]| && keys[1..][j] == rest[i];
      }
    }
  }

  lemma {:induction false} RecencySorted(log: seq<Resolution>)
    requires MonotoneClock(log)
    ensures SortedByLatest(log, ByRecency(log))
  {
    if log == [] {
    } else {
      var before, r := log[..|log| - 1], log[|log| - 1];
      assert log == before + [r];
      RecencySorted(before);
      ByRecencyAppend(before, r);
      var kept := Except(ByRecency(before), r.key);
      ExceptSorted(before, ByRecency(before), r.key);
      forall i | 0 <= i < |kept|
        ensures Latest(log, kept[i]) == Latest(before, kept[i]) && Latest(before, kept[i]).value.at <= r.at
      {
        ExceptMembers(ByRecency(before), r.key, kept[i]);
        LatestAppend(before, r, kept[i]);
        LatestBounded(before, kept[i]);
      }
      LatestAppend(before, r, r.key);
    }
  }

  /** Under a monotone clock the queue is sorted by resolution time. */
  lemma QueueIsSortedByTime(capacity: nat, log: seq<Resolution>, i: nat, j: nat)
    requires MonotoneClock(log)
    requires i < j < |Replay(capacity, log).order|
    ensures var c := Replay(capacity, log);
            c.order[i] in c.hits && c.order[j] in c.hits && c.hits[c.order[i]].at <= c.hits[c.order[j]].at
  {
    CacheHoldsLastDistinctKeys(capacity, log);
    RecencySorted(log);
    var order, recent := Replay(capacity, log).order, ByRecency(log);
    var cut := |recent| - |order|;
    assert order[i] in order && order[j] in order;
    assert Latest(log, recent[cut + i]).value.at <= Latest(log, recent[cut + j]).value.at;
  }

  /** Every key the bound dropped was last resolved no later than every key kept. */
  lemma EvictionDropsOldest(capacity: nat, log: seq<Resolution>, dropped: string, kept: string)
    requires MonotoneClock(log)
    requires Latest(log, dropped).Some?
    requires dropped !in Replay(capacity, log).hits && kept in Replay(capacity, log).hits
    ensures Latest(log, dropped).value.at <= Replay(capacity, log).hits[kept].at
  {
    CacheHoldsLastDistinctKeys(capacity, log);
    RecencySorted(log);
    LatestIsLogged(log, dropped);
    ByRecencyMembers(log, dropped);
    var i, j := DroppedComesFirst(ByRecency(log), capacity, dropped, kept);
    assert Latest(log, ByRecency(log)[i]).value.at <= Latest(log, ByRecency(log)[j]).value.at;
  }

  lemma DroppedComesFirst<T>(recent: seq<T>, capacity: nat, dropped: T, kept: T) returns (i: nat, j: nat)
    requires dropped in recent && dropped !in TakeLast(recent, capacity) && kept in TakeLast(recent, capacity)
    ensures i < j < |recent| && recent[i] == dropped && recent[j] == kept
  {
    var order := TakeLast(recent, capacity);
    var cut := |recent| - |order|;
    i :| 0 <= i < |recent| && recent[i] == dropped;
    var n :| 0 <= n < |order| && order[n] == kept;
    j := cut + n;
    assert forall m :: cut <= m < |recent| ==> recent[m] == order[m - cut];
  }

  lemma {:induction false} LatestIsLogged(log: seq<Resolution>, k: string)
    requires Latest(log, k).Some?
    ensures exists i :: 0 <= i < |log| && log[i].key == k
  {
    if log[|log| - 1].key != k {
      LatestIsLogged(log[..|log| - 1], k);
    }
  }

  // ---------------------------------------------------------------------------
  // Transparency: the cache answers what the provider would have answered
  // ---------------------------------------------------------------------------

  /** Requests interleave: each looks the query up and, if nothing live is held,
      waits for the provider while others go on. Its answer is remembered when it
      comes, unless the caller has gone. */
  datatype Event =
    | LookUp(query: string, now: Instant)
    | Settle(index: nat, now: Instant, provider: Answer)
    | Leave(index: nat)

  datatype Reply = Reply(query: string, answer: Answer)

  /** `asking` are the queries of the requests waiting for the provider. */
  datatype Traffic = Traffic(cache: Cache, asking: seq<string>, replies: seq<Reply>)

  const QUIET: Traffic := Traffic(EMPTY, [], [])

  /** Only hits are remembered. */
  function Settled(c: Cache, config: Config, query: string, now: Instant, provider: Answer): Cache {
    if provider.Found? then Remember(c, config.capacity, config.normalize(query), provider.hit, now) else c
  }

  function Serve(t: Traffic, config: Config, e: Event): Traffic {
    match e
    case LookUp(query, now) =>
      (match Peek(t.cache, config, query, now)
       case Some(hit) => t.(replies := t.replies + [Reply(query, Found(hit))])
       case None => t.(asking := t.asking + [query]))
    case Settle(index, now, provider) =>
      if index >= |t.asking| then t
      else
        var query := t.asking[index];
        Traffic(Settled(t.cache, config, query, now, provider), RemoveAt(t.asking, index),
                t.replies + [Reply(query, provider)])
    case Leave(index) =>
      if index >= |t.asking| then t else t.(asking := RemoveAt(t.asking, index))
  }

  function ServeAll(config: Config, events: seq<Event>): Traffic {
    if events == [] then QUIET else Serve(ServeAll(config, events[..|events| - 1]), config, events[|events| - 1])
  }

  /** Whenever the provider is heard, `says` allows its answer to that query. */
  ghost predicate AnsweredBy(says: (string, Answer) -> bool, config: Config, events: seq<Event>) {
    events == [] ||
    var before, e := events[..|events| - 1], events[|events| - 1];
    && AnsweredBy(says, config, before)
    && (e.Settle? && e.index < |ServeAll(config, before).asking| ==>
          says(ServeAll(config, before).asking[e.index], e.provider))
  }

  /** Same point, or the same miss. Labels echo the query's own spelling, so they
      are not part of the promise. */
  predicate SameAnswer(a: Answer, b: Answer) {
    match (a, b)
    case (Found(x), Found(y)) => x.point == y.point
    case (Missed, Missed) => true
    case (Failed, Failed) => true
    case _ => false
  }

  /** An answer that agrees with `truth`, a point for each normalized query; an
      outage agrees with anything. */
  function Truthful(truth: string -> Option<Point>, config: Config): (string, Answer) -> bool {
    (query: string, answer: Answer) =>
      match answer
      case Found(hit) => truth(config.normalize(query)) == Some(hit.point)
      case Missed => truth(config.normalize(query)) == None
      case Failed => true
  }

  ghost predicate Faithful(c: Cache, truth: string -> Option<Point>) {
    forall k :: k in c.hits ==> truth(k) == Some(c.hits[k].hit.point)
  }

  lemma {:induction false} EvictFaithful(c: Cache, capacity: nat, truth: string -> Option<Point>)
    requires Faithful(c, truth)
    ensures Faithful(Evict(c, capacity), truth)
    decreases |c.order|
  {
    if |c.order| > capacity {
      EvictFaithful(Cache(c.hits - {c.order[0]}, c.order[1..]), capacity, truth);
    }
  }

  lemma SettledIsFaithful(c: Cache, config: Config, query: string, now: Instant, provider: Answer,
                          truth: string -> Option<Point>)
    requires Faithful(c, truth) && Truthful(truth, config)(query, provider)
    ensures Faithful(Settled(c, config, query, now, provider), truth)
  {
    if provider.Found? && config.capacity != 0 {
      var key := config.normalize(query);
      var kept := if key in c.hits then WithoutFirst(c.order, key) else c.order;
      EvictFaithful(Cache(c.hits[key := Entry(provider.hit, now)], kept + [key]), config.capacity, truth);
    }
  }

  /** For every TTL, capacity, clock and interleaving, every reply that is not an
      outage gives the provider's point, or its miss; a held point bridges outages. */
  lemma {:induction false} CachedAnswersAreProviderAnswers(config: Config, events: seq<Event>,
                                                           truth: string -> Option<Point>)
    requires AnsweredBy(Truthful(truth, config), config, events)
    ensures var t := ServeAll(config, events);
            && Faithful(t.cache, truth)
            && forall i :: 0 <= i < |t.replies| ==> Truthful(truth, config)(t.replies[i].query, t.replies[i].answer)
  {
    if events == [] {
    } else {
      var before, e := events[..|events| - 1], events[|events| - 1];
      CachedAnswersAreProviderAnswers(config, before, truth);
      var t := ServeAll(config, before);
      if e.Settle? && e.index < |t.asking| {
        SettledIsFaithful(t.cache, config, t.asking[e.index], e.now, e.provider, truth);
      }
    }
  }

  /** The point a provider gives depends only on the normalized query. */
  ghost predicate FactorsThrough(normalize: string -> string, provider: string -> Option<GeoHit>) {
    forall q, q' {:trigger provider(q), provider(q')} ::
      normalize(q) == normalize(q') && provider(q).Some? ==>
        provider(q').Some? && provider(q').value.point == provider(q).value.point
  }

  function AsAnswer(hit: Option<GeoHit>): Answer {
    match hit case Some(h) => Found(h) case None => Missed
  }

  function Says(provider: string -> Option<GeoHit>): (string, Answer) -> bool {
    (query: string, answer: Answer) => answer == AsAnswer(provider(query))
  }

  ghost predicate RepliesLike(t: Traffic, provider: string -> Option<GeoHit>) {
    forall i :: 0 <= i < |t.replies| ==> SameAnswer(t.replies[i].answer, AsAnswer(provider(t.replies[i].query)))
  }

  /** In every interleaving every reply is the one the provider alone would give. */
  ghost predicate Transparent(config: Config, provider: string -> Option<GeoHit>) {
    forall events: seq<Event> {:trigger ServeAll(config, events)} ::
      AnsweredBy(Says(provider), config, events) ==> RepliesLike(ServeAll(config, events), provider)
  }

  /** A cache without room or lifetime holds nothing. */
  lemma {:induction false} UnheldIsTransparent(config: Config, events: seq<Event>, provider: string -> Option<GeoHit>)
    requires config.capacity == 0 || config.ttl == 0
    requires AnsweredBy(Says(provider), config, events)
    ensures RepliesLike(ServeAll(config, events), provider)
  {
    if events == [] {
    } else {
      UnheldIsTransparent(config, events[..|events| - 1], provider);
    }
  }

  /** A cache that can hold anything at all is transparent for exactly the providers
      whose point depends on the normalized query only. */
  lemma TransparentIffFactors(config: Config, provider: string -> Option<GeoHit>)
    ensures Transparent(config, provider) <==>
              config.capacity == 0 || config.ttl == 0 || FactorsThrough(config.normalize, provider)
  {
    if config.capacity == 0 || config.ttl == 0 {
      forall events: seq<Event> | AnsweredBy(Says(provider), config, events)
        ensures RepliesLike(ServeAll(config, events), provider)
      {
        UnheldIsTransparent(config, events, provider);
      }
    } else {
      if FactorsThrough(config.normalize, provider) {
        FactoringIsTransparent(config, provider);
      }
      if Transparent(config, provider) {
        forall q, q' | config.normalize(q) == config.normalize(q') && provider(q).Some?
          ensures provider(q').Some? && provider(q').value.point == provider(q).value.point
        {
          OneSpellingAnswersAnother(config, provider, q, q');
        }
      }
    }
  }

  lemma ServeNext(says: (string, Answer) -> bool, config: Config, before: seq<Event>, e: Event)
    requires AnsweredBy(says, config, before)
    requires var t := ServeAll(config, before);
             e.Settle? && e.index < |t.asking| ==> says(t.asking[e.index], e.provider)
    ensures AnsweredBy(says, config, before + [e])
    ensures ServeAll(config, before + [e]) == Serve(ServeAll(config, before), config, e)
  {
    assert (before + [e])[..|before|] == before;
  }

  /** A first lookup and its answer. */
  lemma ResolveFirst(config: Config, provider: string -> Option<GeoHit>, q: string) returns (events: seq<Event>)
    requires config.capacity > 0 && provider(q).Some?
    ensures AnsweredBy(Says(provider), config, events)
    ensures var key, hit := config.normalize(q), provider(q).value;
            ServeAll(config, events) == Traffic(Cache(map[key := Entry(hit, 0)], [key]), [], [Reply(q, Found(hit))])
  {
    var asked, settled := LookUp(q, 0), Settle(0, 0, Found(provider(q).value));
    assert AsAnswer(provider(q)) == Found(provider(q).value);
    assert Says(provider)(q, Found(provider(q).value));
    var none: seq<Event> := [];
    assert AnsweredBy(Says(provider), config, none);
    assert ServeAll(config, none) == QUIET;
    ServeNext(Says(provider), config, none, asked);
    assert ServeAll(config, none + [asked]) == Traffic(EMPTY, [q], []);
    ServeNext(Says(provider), config, none + [asked], settled);
    events := none + [asked] + [settled];
  }

  /** Once `q` is resolved, looking `q'` up gives its point. */
  lemma OneSpellingAnswersAnother(config: Config, provider: string -> Option<GeoHit>, q: string, q': string)
    requires config.capacity > 0 && config.ttl > 0 && Transparent(config, provider)
    requires config.normalize(q) == config.normalize(q') && provider(q).Some?
    ensures provider(q').Some? && provider(q').value.point == provider(q).value.point
  {
    var events := ResolveFirst(config, provider, q);
    ServeNext(Says(provider), config, events, LookUp(q', 0));
    var t := ServeAll(config, events + [LookUp(q', 0)]);
    assert t.replies == [Reply(q, Found(provider(q).value)), Reply(q', Found(provider(q).value))];
    assert SameAnswer(t.replies[1].answer, AsAnswer(provider(q')));
  }

  ghost function TruthOf(normalize: string -> string, provider: string -> Option<GeoHit>): string -> Option<Point> {
    key => if exists q :: normalize(q) == key && provider(q).Some? then
             var q :| normalize(q) == key && provider(q).Some?; Some(provider(q).value.point)
           else None
  }

  lemma {:induction false} FactoredRepliesAgree(config: Config, events: seq<Event>, provider: string -> Option<GeoHit>,
                                                truth: string -> Option<Point>)
    requires AnsweredBy(Says(provider), config, events)
    requires forall q :: Truthful(truth, config)(q, AsAnswer(provider(q)))
    ensures AnsweredBy(Truthful(truth, config), config, events)
    ensures RepliesLike(ServeAll(config, events), provider)
  {
    if events == [] {
    } else {
      FactoredRepliesAgree(config, events[..|events| - 1], provider, truth);
      CachedAnswersAreProviderAnswers(config, events[..|events| - 1], truth);
    }
  }

  lemma FactoringIsTransparent(config: Config, provider: string -> Option<GeoHit>)
    requires FactorsThrough(config.normalize, provider)
    ensures Transparent(config, provider)
  {
    var truth := TruthOf(config.normalize, provider);
    forall q ensures Truthful(truth, config)(q, AsAnswer(provider(q))) {
      assert provider(q).Some? ==> truth(config.normalize(q)) == Some(provider(q).value.point);
    }
    forall events: seq<Event> | AnsweredBy(Says(provider), config, events)
      ensures RepliesLike(ServeAll(config, events), provider)
    {
      FactoredRepliesAgree(config, events, provider, truth);
    }
  }

  /** The development geocoder: nothing for a blank query, a landmark's point if
      the normalized query names one, a deterministic jitter otherwise. The label
      is the query as typed. */
  function FakeGeocode(normalize: string -> string, trim: string -> string,
                       landmarks: map<string, Point>, jitter: string -> Point, query: string): Option<GeoHit>
  {
    var q := normalize(query);
    if q == "" then None
    else if q in landmarks then Some(GeoHit(trim(query), landmarks[q]))
    else Some(GeoHit(trim(query), jitter(q)))
  }

  /** Wrapping the development geocoder in the cache changes no point and no miss. */
  lemma FakeGeocoderIsSafeToCache(config: Config, trim: string -> string,
                                  landmarks: map<string, Point>, jitter: string -> Point)
    ensures Transparent(config, q => FakeGeocode(config.normalize, trim, landmarks, jitter, q))
  {
    FactoringIsTransparent(config, q => FakeGeocode(config.normalize, trim, landmarks, jitter, q));
  }
}
