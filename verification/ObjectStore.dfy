/** The in-memory object store behind the storage port, and the two loops that
    delete from it while paging over it: the full reset and the orphan sweep. */
module ObjectStore {
  import opened Common

  datatype Key = Key(text: string)

  datatype StorageError = Unavailable

  datatype ObjectInfo = ObjectInfo(key: Key, lastModified: int)

  datatype ObjectPage = ObjectPage(objects: seq<ObjectInfo>, next: Option<Key>)

  // ---------------------------------------------------------------------------
  // Key order
  // ---------------------------------------------------------------------------

  predicate TextLess(a: string, b: string) {
    b != [] && (a == [] || a[0] < b[0] || (a[0] == b[0] && TextLess(a[1..], b[1..])))
  }

  predicate Less(a: Key, b: Key) {
    TextLess(a.text, b.text)
  }

  lemma {:induction false} TextLessIsTotal(a: string, b: string)
    ensures TextLess(a, b) || a == b || TextLess(b, a)
    ensures !(TextLess(a, b) && TextLess(b, a))
    decreases |a|
  {
    if a != [] && b != [] {
      TextLessIsTotal(a[1..], b[1..]);
      assert a == [a[0]] + a[1..] && b == [b[0]] + b[1..];
    }
  }

  lemma {:induction false} TextLessIsTransitive(a: string, b: string, c: string)
    requires TextLess(a, b) && TextLess(b, c)
    ensures TextLess(a, c)
  {
    if a != [] && a[0] == b[0] == c[0] {
      TextLessIsTransitive(a[1..], b[1..], c[1..]);
    }
  }

  lemma LessIsTotal(a: Key, b: Key)
    ensures Less(a, b) || a == b || Less(b, a)
    ensures !(Less(a, b) && Less(b, a))
    ensures !Less(a, a)
  {
    TextLessIsTotal(a.text, b.text);
    TextLessIsTotal(a.text, a.text);
  }

  lemma LessIsTransitive(a: Key, b: Key, c: Key)
    requires Less(a, b) && Less(b, c)
    ensures Less(a, c)
  {
    TextLessIsTransitive(a.text, b.text, c.text);
  }

  predicate Under(prefix: string, key: Key) {
    prefix <= key.text
  }

  ghost predicate AscendingKeys(objects: seq<ObjectInfo>) {
    forall i, j :: 0 <= i < j < |objects| ==> Less(objects[i].key, objects[j].key)
  }

  /** Whether `key` comes strictly after the resume point. */
  predicate Beyond(after: Option<Key>, key: Key) {
    after.Some? ==> Less(after.value, key)
  }

  ghost function Listed(store: map<Key, int>, prefix: string, after: Option<Key>): set<Key> {
    set k | k in store && Under(prefix, k) && Beyond(after, k)
  }

  function KeysOf(objects: seq<ObjectInfo>): set<Key> {
    if objects == [] then {}
    else KeysOf(objects[..|objects| - 1]) + {objects[|objects| - 1].key}
  }

  lemma {:induction false} KeysOfMember(objects: seq<ObjectInfo>, k: Key)
    ensures k in KeysOf(objects) <==> exists i :: 0 <= i < |objects| && objects[i].key == k
  {
    if objects == [] {
    } else {
      var front := objects[..|objects| - 1];
      KeysOfMember(front, k);
      if k in KeysOf(front) {
        var i :| 0 <= i < |front| && front[i].key == k;
        assert objects[i].key == k;
      }
      if i :| 0 <= i < |objects| && objects[i].key == k && i < |front| {
        assert front[i].key == k;
      }
    }
  }

  /** The listing contract: ascending keys under the prefix, strictly after the
      resume point; a page without `next` is everything left, a page with one is
      full and everything left lies beyond it. */
  ghost predicate Lists(store: map<Key, int>, pageSize: nat, prefix: string, after: Option<Key>, page: ObjectPage) {
    && AscendingKeys(page.objects)
    && (forall i :: 0 <= i < |page.objects| ==>
          page.objects[i].key in Listed(store, prefix, after) &&
              store[page.objects[i].key] == page.objects[i].lastModified)
    && (page.next.None? ==> KeysOf(page.objects) == Listed(store, prefix, after))
    && (page.next.Some? ==>
          && pageSize > 0 && |page.objects| == pageSize
          && page.next.value == page.objects[pageSize - 1].key
          && (forall k :: k in Listed(store, prefix, after) ==>
              (k in KeysOf(page.objects) <==> !Less(page.next.value, k))))
  }

  // ---------------------------------------------------------------------------
  // Sorting a listing
  // ---------------------------------------------------------------------------

  function Insert(o: ObjectInfo, sorted: seq<ObjectInfo>): seq<ObjectInfo> {
    if sorted == [] || Less(o.key, sorted[0].key) then [o] + sorted
    else [sorted[0]] + Insert(o, sorted[1..])
  }

  lemma {:induction false} InsertKeepsSorted(o: ObjectInfo, sorted: seq<ObjectInfo>)
    requires AscendingKeys(sorted)
    requires forall i :: 0 <= i < |sorted| ==> sorted[i].key != o.key
    ensures AscendingKeys(Insert(o, sorted))
    ensures forall x :: x in Insert(o, sorted) <==> x == o || x in sorted
  {
    if sorted == [] {
    } else {
      LessIsTotal(o.key, sorted[0].key);
      if Less(o.key, sorted[0].key) {
        forall j | 0 < j < |sorted| ensures Less(o.key, sorted[j].key) {
          LessIsTransitive(o.key, sorted[0].key, sorted[j].key);
        }
      } else {
        var rest := Insert(o, sorted[1..]);
        InsertKeepsSorted(o, sorted[1..]);
        assert sorted == [sorted[0]] + sorted[1..];
        forall j | 0 <= j < |rest| ensures Less(sorted[0].key, rest[j].key) {
          assert rest[j] in rest;
          assert rest[j] == o || rest[j] in sorted[1..];
        }
      }
    }
  }

  lemma CollectedKeys(store: map<Key, int>, all: seq<ObjectInfo>, listed: set<Key>)
    requires listed <= store.Keys
    requires forall i :: 0 <= i < |all| ==> all[i].key in listed
    requires forall k :: k in listed ==> ObjectInfo(k, store[k]) in all
    ensures KeysOf(all) == listed
  {
    forall k ensures k in KeysOf(all) <==> k in listed {
      KeysOfMember(all, k);
      if k in listed {
        var i :| 0 <= i < |all| && all[i] == ObjectInfo(k, store[k]);
      }
    }
  }

  /** Truncating a sorted listing leaves exactly the keys up to the new last one. */
  lemma TruncatedListing(all: seq<ObjectInfo>, pageSize: nat, k: Key)
    requires AscendingKeys(all) && 0 < pageSize < |all| && k in KeysOf(all)
    ensures k in KeysOf(all[..pageSize]) <==> !Less(all[pageSize - 1].key, k)
  {
    var kept, last := all[..pageSize], all[pageSize - 1].key;
    KeysOfMember(all, k);
    KeysOfMember(kept, k);
    var i :| 0 <= i < |all| && all[i].key == k;
    LessIsTotal(last, k);
    if i < pageSize {
      assert kept[i].key == k;
      assert i == pageSize - 1 || Less(all[i].key, last);
    } else {
      assert Less(last, k);
      forall j | 0 <= j < pageSize ensures kept[j].key != k {
        assert Less(all[j].key, all[i].key);
        LessIsTotal(k, k);
      }
    }
  }

  // ---------------------------------------------------------------------------
  // The store
  // ---------------------------------------------------------------------------

  class TestObjectStorage {
    /** Last-modified time by key; the bytes play no part here. */
    var store: map<Key, int>
    var listFails: bool
    /** Keys per page; zero puts everything in one page. */
    var pageSize: nat

    constructor (pageSize: nat)
      ensures store == map[] && !listFails && this.pageSize == pageSize
    {
      store, listFails, this.pageSize := map[], false, pageSize;
    }

    method Put(key: Key, now: int)
      modifies this`store
      ensures store == old(store)[key := now]
    {
      store := store[key := now];
    }

    /** Missing objects are not an error. */
    method Delete(key: Key)
      modifies this`store
      ensures store == old(store) - {key}
    {
      store := store - {key};
    }

    /** The matching objects, collected from the map in no particular order and
        sorted by key. */
    method Collect(prefix: string, after: Option<Key>) returns (all: seq<ObjectInfo>)
      ensures AscendingKeys(all)
      ensures forall i :: 0 <= i < |all| ==>
                all[i].key in Listed(store, prefix, after) && store[all[i].key] == all[i].lastModified
      ensures forall k :: k in Listed(store, prefix, after) ==> ObjectInfo(k, store[k]) in all
    {
      all := [];
      var rest := store.Keys;
      while rest != {}
        invariant rest <= store.Keys && AscendingKeys(all)
        invariant forall o :: o in all ==>
                  o.key in Listed(store, prefix, after) - rest && store[o.key] == o.lastModified
        invariant forall k :: k in Listed(store, prefix, after) && k !in rest ==> ObjectInfo(k, store[k]) in all
        decreases |rest|
      {
        var k :| k in rest;
        rest := rest - {k};
        if Under(prefix, k) && Beyond(after, k) {
          var o := ObjectInfo(k, store[k]);
          InsertKeepsSorted(o, all);
          all := Insert(o, all);
        }
      }
    }

    method List(prefix: string, after: Option<Key>) returns (r: Result<ObjectPage, StorageError>)
      ensures r.Err? <==> listFails
      ensures r.Ok? ==> Lists(store, pageSize, prefix, after, r.value)
    {
      if listFails {
        return Err(Unavailable);
      }
      var keys := Collect(prefix, after);
      CollectedKeys(store, keys, Listed(store, prefix, after));
      if pageSize == 0 || |keys| <= pageSize {
        return Ok(ObjectPage(keys, None));
      }
      forall k | k in Listed(store, prefix, after)
        ensures k in KeysOf(keys[..pageSize]) <==> !Less(keys[pageSize - 1].key, k)
      {
        TruncatedListing(keys, pageSize, k);
      }
      keys := keys[..pageSize];
      return Ok(ObjectPage(keys, Some(keys[|keys| - 1].key)));
    }
  }

  // ---------------------------------------------------------------------------
  // Reset: list a page, delete it, resume after it
  // ---------------------------------------------------------------------------

  ghost function Without(store: map<Key, int>, gone: set<Key>): map<Key, int> {
    store - gone
  }

  /** Deletes a listed page, object by object. */
  method DeletePage(storage: TestObjectStorage, objects: seq<ObjectInfo>) returns (count: nat)
    requires AscendingKeys(objects)
    requires forall i :: 0 <= i < |objects| ==> objects[i].key in storage.store
    modifies storage`store
    ensures storage.store == Without(old(storage.store), KeysOf(objects))
    ensures count == |objects| && |storage.store| == |old(storage.store)| - count
  {
    count := 0;
    ghost var start := storage.store;
    while count < |objects|
      invariant count <= |objects|
      invariant storage.store == Without(start, KeysOf(objects[..count]))
      invariant |storage.store| == |start| - count
    {
      NotListedYet(objects, count);
      assert objects[..count + 1][..count] == objects[..count];
      WithoutOneMore(start, KeysOf(objects[..count]), objects[count].key);
      storage.Delete(objects[count].key);
      count := count + 1;
    }
    assert objects[..count] == objects;
  }

  lemma NotListedYet(objects: seq<ObjectInfo>, i: nat)
    requires AscendingKeys(objects) && i < |objects|
    ensures objects[i].key !in KeysOf(objects[..i])
  {
    KeysOfMember(objects[..i], objects[i].key);
    forall j | 0 <= j < i ensures objects[..i][j].key != objects[i].key {
      assert Less(objects[j].key, objects[i].key);
      LessIsTotal(objects[i].key, objects[i].key);
    }
  }

  lemma WithoutOneMore(store: map<Key, int>, gone: set<Key>, key: Key)
    requires key in store && key !in gone
    ensures Without(store, gone) - {key} == Without(store, gone + {key})
    ensures |Without(store, gone + {key})| == |Without(store, gone)| - 1
  {
    assert Without(store, gone + {key}).Keys == Without(store, gone).Keys - {key};
  }

  /** Deletes every object and returns how many there were, although the listing
      shrinks under the cursor. A store that cannot list is left untouched. */
  method ResetAllData(storage: TestObjectStorage) returns (deleted: Result<nat, StorageError>)
    modifies storage`store
    ensures deleted.Err? <==> storage.listFails
    ensures deleted.Err? ==> storage.store == old(storage.store)
    ensures deleted.Ok? ==> storage.store == map[] && deleted.value == |old(storage.store)|
  {
    var count := 0;
    var after: Option<Key> := None;
    while true
      invariant after.Some? ==> !storage.listFails
      invariant after.None? ==> storage.store == old(storage.store)
      invariant forall k :: k in storage.store ==> Beyond(after, k)
      invariant |storage.store| + count == |old(storage.store)|
      decreases |storage.store|
    {
      var listed := storage.List([], after);
      if listed.Err? {
        return Err(listed.error);
      }
      var page := listed.value;
      assert Listed(storage.store, [], after) == storage.store.Keys;
      var n := DeletePage(storage, page.objects);
      count := count + n;
      match page.next {
        case Some(next) =>
          after := Some(next);
        case None =>
          return Ok(count);
      }
    }
  }

  // ---------------------------------------------------------------------------
  // Orphan sweep: delete only what is old and unreferenced
  // ---------------------------------------------------------------------------

  const UPLOAD_PREFIX: string := "uploads/"

  ghost function Orphans(store: map<Key, int>, cutoff: int, referenced: set<Key>): set<Key> {
    set k | k in store && Under(UPLOAD_PREFIX, k) && store[k] < cutoff && k !in referenced
  }

  ghost predicate Settled(after: Option<Key>, key: Key) {
    after.Some? && !Less(after.value, key)
  }

  /** The sweep's state between pages: keys up to the resume point are decided,
      keys beyond it are as they were. */
  ghost predicate SweptUpTo(before: map<Key, int>, store: map<Key, int>, after: Option<Key>, cutoff: int,
                            referenced: set<Key>)
  {
    store == Without(before, set k | k in Orphans(before, cutoff, referenced) && Settled(after, k))
  }

  ghost function Aged(objects: seq<ObjectInfo>, cutoff: int, referenced: set<Key>): set<Key> {
    if objects == [] then {}
    else
      var o := objects[|objects| - 1];
      Aged(objects[..|objects| - 1], cutoff, referenced) + if o.lastModified < cutoff && o.key !in referenced
        then {o.key} else {}
  }

  lemma {:induction false} AgedMember(store: map<Key, int>, objects: seq<ObjectInfo>, cutoff: int,
                                      referenced: set<Key>, k: Key)
    requires forall i :: 0 <= i < |objects| ==>
              objects[i].key in store && store[objects[i].key] == objects[i].lastModified
    ensures k in Aged(objects, cutoff, referenced) <==>
            k in KeysOf(objects) && k in store && store[k] < cutoff && k !in referenced
  {
    if objects == [] {
    } else {
      AgedMember(store, objects[..|objects| - 1], cutoff, referenced, k);
    }
  }

  lemma AgedNext(store: map<Key, int>, objects: seq<ObjectInfo>, i: nat, cutoff: int, referenced: set<Key>)
    requires AscendingKeys(objects) && i < |objects|
    requires forall i :: 0 <= i < |objects| ==>
              objects[i].key in store && store[objects[i].key] == objects[i].lastModified
    ensures objects[i].key !in Aged(objects[..i], cutoff, referenced)
    ensures Aged(objects[..i + 1], cutoff, referenced) == Aged(objects[..i], cutoff, referenced) +
            if objects[i].lastModified < cutoff && objects[i].key !in referenced then {objects[i].key} else {}
  {
    NotListedYet(objects, i);
    AgedMember(store, objects[..i], cutoff, referenced, objects[i].key);
    assert objects[..i + 1][..i] == objects[..i];
  }

  /** Of one page, deletes the aged objects that no row references. */
  method PurgeUnreferenced(storage: TestObjectStorage, objects: seq<ObjectInfo>, cutoff: int, referenced: set<Key>)
    returns (count: nat)
    requires AscendingKeys(objects)
    requires forall i :: 0 <= i < |objects| ==>
               objects[i].key in storage.store && storage.store[objects[i].key] == objects[i].lastModified
    modifies storage`store
    ensures storage.store == Without(old(storage.store), Aged(objects, cutoff, referenced))
    ensures |storage.store| + count == |old(storage.store)|
  {
    count := 0;
    var i := 0;
    ghost var start := storage.store;
    while i < |objects|
      invariant i <= |objects|
      invariant storage.store == Without(start, Aged(objects[..i], cutoff, referenced))
      invariant |storage.store| + count == |start|
    {
      var o := objects[i];
      AgedNext(start, objects, i, cutoff, referenced);
      if o.lastModified < cutoff && o.key !in referenced {
        WithoutOneMore(start, Aged(objects[..i], cutoff, referenced), o.key);
        storage.Delete(o.key);
        count := count + 1;
      }
      i := i + 1;
    }
    assert objects[..i] == objects;
  }

  /** Every upload up to `after`, or every upload at all, was listed on some page so far
      and spared exactly if that page's own probe found it referenced. */
  ghost predicate DecidedByProbes(start: map<Key, int>, after: Option<Key>, spared: set<Key>, probe: nat -> set<Key>,
                                  pageOf: map<Key, nat>, pages: nat) {
    forall k :: k in start && Under(UPLOAD_PREFIX, k) && (after.None? || Settled(after, k)) ==>
      k in pageOf && pageOf[k] < pages && (k in spared <==> k in probe(pageOf[k]))
  }

  ghost function PagesWith(pageOf: map<Key, nat>, keys: set<Key>, page: nat): map<Key, nat> {
    map k | k in pageOf.Keys + keys :: if k in keys then page else pageOf[k]
  }

  /** Lists one page and deletes its aged, unreferenced objects. */
  method PurgePage(storage: TestObjectStorage, after: Option<Key>, cutoff: int, referenced: set<Key>)
    returns (purged: Result<nat, StorageError>, next: Option<Key>, ghost page: ObjectPage)
    modifies storage`store
    ensures purged.Err? <==> storage.listFails
    ensures purged.Err? ==> storage.store == old(storage.store)
    ensures purged.Ok? ==>
              && Lists(old(storage.store), storage.pageSize, UPLOAD_PREFIX, after, page) && next == page.next
              && storage.store == Without(old(storage.store), Aged(page.objects, cutoff, referenced))
              && |storage.store| + purged.value == |old(storage.store)|
  {
    next, page := None, ObjectPage([], None);
    var listed := storage.List(UPLOAD_PREFIX, after);
    if listed.Err? {
      return Err(listed.error), next, page;
    }
    next, page := listed.value.next, listed.value;
    var n := PurgeUnreferenced(storage, listed.value.objects, cutoff, referenced);
    return Ok(n), next, page;
  }

  /** Deletes the old uploads that no photo row referenced when their page was
      probed, and counts them, whatever the page size. `probe(p)` are the keys rows
      reference at the `p`-th page's probe, `pageOf` the page each upload was on and
      `spared` the keys the probes kept. */
  method PurgeOrphanUploads(storage: TestObjectStorage, cutoff: int, probe: nat -> set<Key>)
    returns (purged: Result<nat, StorageError>, ghost spared: set<Key>, ghost pageOf: map<Key, nat>, ghost pages: nat)
    modifies storage`store
    ensures purged.Err? <==> storage.listFails
    ensures purged.Err? ==> storage.store == old(storage.store)
    ensures purged.Ok? ==>
              && storage.store == old(storage.store) - Orphans(old(storage.store), cutoff, spared)
              && purged.value == |Orphans(old(storage.store), cutoff, spared)|
              && DecidedByProbes(old(storage.store), None, spared, probe, pageOf, pages)
  {
    ghost var start := storage.store;
    var count := 0;
    var after: Option<Key> := None;
    var page := 0;
    spared, pageOf, pages := {}, map[], 0;
    while true
      invariant after.Some? ==> !storage.listFails
      invariant after.None? ==> storage.store == start && page == 0
      invariant SweptUpTo(start, storage.store, after, cutoff, spared)
      invariant forall k :: k in spared ==> Settled(after, k)
      invariant after.Some? ==> DecidedByProbes(start, after, spared, probe, pageOf, page)
      invariant |storage.store| + count == |start|
      decreases |Listed(storage.store, UPLOAD_PREFIX, after)|
    {
      ghost var before := storage.store;
      var n, next;
      ghost var listed;
      n, next, listed := PurgePage(storage, after, cutoff, probe(page));
      if n.Err? {
        return Err(n.error), spared, pageOf, pages;
      }
      PageDecides(start, before, storage.pageSize, after, listed, cutoff, spared, probe, pageOf, page);
      count := count + n.value;
      spared := spared + KeysOf(listed.objects) * probe(page);
      pageOf, page := PagesWith(pageOf, KeysOf(listed.objects), page), page + 1;
      match next {
        case Some(key) =>
          after := Some(key);
        case None =>
          SweptCount(start, storage.store, cutoff, spared);
          return Ok(count), spared, pageOf, page;
      }
    }
  }

  /** What the page's probe spares was undecided before, so it only matters from this
      page on. */
  lemma SpareMore(start: map<Key, int>, before: map<Key, int>, pageSize: nat, after: Option<Key>, page: ObjectPage,
                  cutoff: int, spared: set<Key>, referenced: set<Key>)
    requires SweptUpTo(start, before, after, cutoff, spared) && Lists(before, pageSize, UPLOAD_PREFIX, after, page)
    requires forall k :: k in spared ==> Settled(after, k)
    ensures var kept := spared + KeysOf(page.objects) * referenced;
            && SweptUpTo(start, before, after, cutoff, kept)
            && Aged(page.objects, cutoff, kept) == Aged(page.objects, cutoff, referenced)
  {
    var kept := spared + KeysOf(page.objects) * referenced;
    forall k | k in KeysOf(page.objects) ensures !Settled(after, k) {
      KeysOfMember(page.objects, k);
    }
    assert (set k | k in Orphans(start, cutoff, kept) && Settled(after, k)) ==
           (set k | k in Orphans(start, cutoff, spared) && Settled(after, k));
    forall k ensures k in Aged(page.objects, cutoff, kept) <==> k in Aged(page.objects, cutoff, referenced) {
      AgedMember(before, page.objects, cutoff, kept, k);
      AgedMember(before, page.objects, cutoff, referenced, k);
    }
  }

  lemma ProbeNext(start: map<Key, int>, before: map<Key, int>, pageSize: nat, after: Option<Key>, page: ObjectPage,
                  cutoff: int, spared: set<Key>, probe: nat -> set<Key>, pageOf: map<Key, nat>, pages: nat)
    requires SweptUpTo(start, before, after, cutoff, spared) && Lists(before, pageSize, UPLOAD_PREFIX, after, page)
    requires forall k :: k in spared ==> Settled(after, k)
    requires after.Some? ==> DecidedByProbes(start, after, spared, probe, pageOf, pages)
    ensures var kept := spared + KeysOf(page.objects) * probe(pages);
            && DecidedByProbes(start, page.next, kept, probe, PagesWith(pageOf, KeysOf(page.objects), pages), pages + 1)
            && (page.next.Some? ==> forall k :: k in kept ==> Settled(page.next, k))
  {
    var kept := spared + KeysOf(page.objects) * probe(pages);
    forall k | k in KeysOf(page.objects) ensures !Settled(after, k) {
      KeysOfMember(page.objects, k);
    }
    forall k | k in start && Under(UPLOAD_PREFIX, k) && (page.next.None? || Settled(page.next, k))
      ensures k in KeysOf(page.objects) || Settled(after, k)
    {
      DecidedNow(start, before, pageSize, after, page, cutoff, spared, k);
    }
    if page.next.Some? {
      forall k | k in kept ensures Settled(page.next, k) {
        KeptIsSettled(before, pageSize, after, page, k);
      }
    }
  }

  /** One page of the sweep: it decides its keys by its own probe, and either leaves less
      to list or completes the sweep. */
  lemma PageDecides(start: map<Key, int>, before: map<Key, int>, pageSize: nat, after: Option<Key>, page: ObjectPage,
                    cutoff: int, spared: set<Key>, probe: nat -> set<Key>, pageOf: map<Key, nat>, pages: nat)
    requires SweptUpTo(start, before, after, cutoff, spared) && Lists(before, pageSize, UPLOAD_PREFIX, after, page)
    requires forall k :: k in spared ==> Settled(after, k)
    requires after.Some? ==> DecidedByProbes(start, after, spared, probe, pageOf, pages)
    ensures var kept := spared + KeysOf(page.objects) * probe(pages);
            var store := Without(before, Aged(page.objects, cutoff, probe(pages)));
            && DecidedByProbes(start, page.next, kept, probe, PagesWith(pageOf, KeysOf(page.objects), pages), pages + 1)
            && (page.next.None? ==> store == start - Orphans(start, cutoff, kept))
            && (page.next.Some? ==>
                  && SweptUpTo(start, store, page.next, cutoff, kept)
                  && (forall k :: k in kept ==> Settled(page.next, k))
                  && |Listed(store, UPLOAD_PREFIX, page.next)| < |Listed(before, UPLOAD_PREFIX, after)|)
  {
    var kept := spared + KeysOf(page.objects) * probe(pages);
    SpareMore(start, before, pageSize, after, page, cutoff, spared, probe(pages));
    ProbeNext(start, before, pageSize, after, page, cutoff, spared, probe, pageOf, pages);
    if page.next.Some? {
      SweepPage(start, before, pageSize, after, page, cutoff, kept);
    } else {
      LastSweepPage(start, before, pageSize, after, page, cutoff, kept);
    }
  }

  lemma DecidedNow(start: map<Key, int>, before: map<Key, int>, pageSize: nat, after: Option<Key>, page: ObjectPage,
                   cutoff: int, spared: set<Key>, k: Key)
    requires SweptUpTo(start, before, after, cutoff, spared) && Lists(before, pageSize, UPLOAD_PREFIX, after, page)
    requires k in start && Under(UPLOAD_PREFIX, k) && (page.next.None? || Settled(page.next, k))
    ensures k in KeysOf(page.objects) || Settled(after, k)
  {
    if !Settled(after, k) {
      assert k in before && k in Listed(before, UPLOAD_PREFIX, after);
      if page.next.Some? {
        SettledBy(before, pageSize, after, page, k);
      }
    }
  }

  lemma KeptIsSettled(before: map<Key, int>, pageSize: nat, after: Option<Key>, page: ObjectPage, k: Key)
    requires Lists(before, pageSize, UPLOAD_PREFIX, after, page) && page.next.Some?
    requires Settled(after, k) || k in KeysOf(page.objects)
    ensures Settled(page.next, k)
  {
    var next := page.next.value;
    KeysOfMember(page.objects, k);
    LessIsTotal(next, k);
    if Settled(after, k) && Less(next, k) {
      LessIsTransitive(after.value, next, k);
    }
  }

  /** While the references stand still, the sweep deletes exactly the old uploads outside
      them. */
  lemma SteadySweepIsExact(start: map<Key, int>, cutoff: int, spared: set<Key>, probe: nat -> set<Key>,
                           pageOf: map<Key, nat>, pages: nat, referenced: set<Key>)
    requires DecidedByProbes(start, None, spared, probe, pageOf, pages)
    requires forall p :: 0 <= p < pages ==> probe(p) == referenced
    ensures Orphans(start, cutoff, spared) == Orphans(start, cutoff, referenced)
  {
    forall k | k in start && Under(UPLOAD_PREFIX, k) ensures k in spared <==> k in referenced {
      assert probe(pageOf[k]) == referenced;
    }
  }

  lemma SweptCount(start: map<Key, int>, store: map<Key, int>, cutoff: int, referenced: set<Key>)
    requires store == start - Orphans(start, cutoff, referenced)
    ensures |start| == |store| + |Orphans(start, cutoff, referenced)|
  {
    assert start.Keys == store.Keys + Orphans(start, cutoff, referenced);
  }

  lemma PageOrphans(start: map<Key, int>, before: map<Key, int>, pageSize: nat, after: Option<Key>, page: ObjectPage,
                    cutoff: int, referenced: set<Key>)
    requires SweptUpTo(start, before, after, cutoff, referenced)
    requires Lists(before, pageSize, UPLOAD_PREFIX, after, page)
    ensures Aged(page.objects, cutoff, referenced) == KeysOf(page.objects) * Orphans(start, cutoff, referenced)
  {
    forall k ensures k in Aged(page.objects, cutoff, referenced) <==>
                     k in KeysOf(page.objects) && k in Orphans(start, cutoff, referenced)
    {
      AgedMember(before, page.objects, cutoff, referenced, k);
      KeysOfMember(page.objects, k);
    }
  }

  /** A page with a resume point decides everything up to it, leaving less to list. */
  lemma SweepPage(start: map<Key, int>, before: map<Key, int>, pageSize: nat, after: Option<Key>, page: ObjectPage,
                  cutoff: int, referenced: set<Key>)
    requires SweptUpTo(start, before, after, cutoff, referenced)
    requires Lists(before, pageSize, UPLOAD_PREFIX, after, page) && page.next.Some?
    ensures var store := Without(before, Aged(page.objects, cutoff, referenced));
            && SweptUpTo(start, store, page.next, cutoff, referenced)
            && |Listed(store, UPLOAD_PREFIX, page.next)| < |Listed(before, UPLOAD_PREFIX, after)|
  {
    PageOrphans(start, before, pageSize, after, page, cutoff, referenced);
    var orphans := Orphans(start, cutoff, referenced);
    var done, next := set k | k in orphans && Settled(after, k), set k | k in orphans && Settled(page.next, k);
    forall k | k in orphans ensures Settled(page.next, k) <==> Settled(after, k) || k in KeysOf(page.objects) {
      SettledBy(before, pageSize, after, page, k);
    }
    assert next == done + KeysOf(page.objects) * orphans;
    FewerListed(before, Without(before, Aged(page.objects, cutoff, referenced)), pageSize, after, page);
  }

  /** A page without one decides the rest. */
  lemma LastSweepPage(start: map<Key, int>, before: map<Key, int>, pageSize: nat, after: Option<Key>, page: ObjectPage,
                      cutoff: int, referenced: set<Key>)
    requires SweptUpTo(start, before, after, cutoff, referenced)
    requires Lists(before, pageSize, UPLOAD_PREFIX, after, page) && page.next.None?
    ensures Without(before, Aged(page.objects, cutoff, referenced)) == start - Orphans(start, cutoff, referenced)
  {
    PageOrphans(start, before, pageSize, after, page, cutoff, referenced);
    var orphans := Orphans(start, cutoff, referenced);
    var done := set k | k in orphans && Settled(after, k);
    forall k | k in orphans ensures k in done || k in KeysOf(page.objects) {
      if k !in done {
        assert k in Listed(before, UPLOAD_PREFIX, after);
      }
    }
    assert orphans == done + KeysOf(page.objects) * orphans;
  }

  lemma FewerListed(before: map<Key, int>, store: map<Key, int>, pageSize: nat, after: Option<Key>, page: ObjectPage)
    requires Lists(before, pageSize, UPLOAD_PREFIX, after, page) && page.next.Some?
    requires store.Keys <= before.Keys
    ensures |Listed(store, UPLOAD_PREFIX, page.next)| < |Listed(before, UPLOAD_PREFIX, after)|
  {
    var next := page.next.value;
    var larger, smaller := Listed(before, UPLOAD_PREFIX, after), Listed(store, UPLOAD_PREFIX, page.next);
    assert next in larger;
    LessIsTotal(next, next);
    forall k | k in smaller ensures k in larger {
      if after.Some? {
        LessIsTransitive(after.value, next, k);
      }
    }
    assert larger == smaller + (larger - smaller) && next in larger - smaller;
  }

  /** A key is settled by a page when an earlier page settled it or this page
      lists it. */
  lemma SettledBy(store: map<Key, int>, pageSize: nat, after: Option<Key>, page: ObjectPage, k: Key)
    requires Lists(store, pageSize, UPLOAD_PREFIX, after, page) && page.next.Some?
    requires Under(UPLOAD_PREFIX, k) && (k in store || Settled(after, k))
    ensures Settled(page.next, k) <==> Settled(after, k) || k in KeysOf(page.objects)
  {
    var next := page.next.value;
    KeysOfMember(page.objects, k);
    if Settled(after, k) {
      LessIsTotal(next, k);
      if Less(next, k) {
        LessIsTransitive(after.value, next, k);
      }
    } else {
      assert k in Listed(store, UPLOAD_PREFIX, after);
    }
  }
}
