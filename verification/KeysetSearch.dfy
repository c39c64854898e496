/** Keyset pagination of search results: one page per request, each minting the
    cursor the next request resumes after. */
module KeysetSearch {
  import opened Common

  const MAX_PAGE_SIZE: nat := 100

  datatype Sort = Recommended | Distance | Security | Rating | RecentlyVerified

  /** What the reader orders by: its own sort key, then the row id. */
  datatype Row = Row(key: real, id: int)

  datatype Cursor = Cursor(sort: Sort, v: real, id: int)

  datatype Request = Request(sort: Sort, pageSize: nat, cursor: Option<Cursor>)

  datatype SearchPage = SearchPage(items: seq<Row>, next: Option<Cursor>)

  predicate Before(a: Row, b: Row) {
    a.key < b.key || (a.key == b.key && a.id < b.id)
  }

  ghost predicate Ascending(s: seq<Row>) {
    forall i, j :: 0 <= i < j < |s| ==> Before(s[i], s[j])
  }

  predicate After(cursor: Option<Cursor>, r: Row) {
    cursor.Some? ==> Before(Row(cursor.value.v, cursor.value.id), r)
  }

  // ---------------------------------------------------------------------------
  // One page
  // ---------------------------------------------------------------------------

  function Gap(a: int, b: int): nat {
    if a < b then b - a else a - b
  }

  predicate MintedFor(sort: Sort, cursor: Option<Cursor>) {
    cursor.Some? ==> cursor.value.sort == sort
  }

  /** The nearest allowed page size, and the cursor if it was minted for this sort. */
  function NewRequest(sort: Sort, pageSize: nat, cursor: Option<Cursor>): (r: Request)
    ensures 1 <= r.pageSize <= MAX_PAGE_SIZE && r.sort == sort
    ensures 1 <= pageSize <= MAX_PAGE_SIZE ==> r.pageSize == pageSize
    ensures forall size :: 1 <= size <= MAX_PAGE_SIZE ==> Gap(r.pageSize, pageSize) <= Gap(size, pageSize)
    ensures r.cursor == if MintedFor(sort, cursor) then cursor else None
  {
    var size := if pageSize < 1 then 1 else if pageSize > MAX_PAGE_SIZE then MAX_PAGE_SIZE else pageSize;
    Request(sort, size, if cursor.Some? && cursor.value.sort == sort then cursor else None)
  }

  /** The reader port's contract over one snapshot of the matching rows:
      ascending, strictly after the cursor, limited, and skipping nothing. */
  ghost predicate Reads(rows: set<Row>, cursor: Option<Cursor>, limit: nat, items: seq<Row>) {
    && Ascending(items)
    && |items| <= limit
    && (forall r :: r in items ==> r in rows && After(cursor, r))
    && (forall r :: r in rows && After(cursor, r) && r !in items ==>
          |items| == limit && forall i :: 0 <= i < |items| ==> Before(items[i], r))
  }

  function CursorAt(sort: Sort, r: Row): Cursor {
    Cursor(sort, r.key, r.id)
  }

  function PageOf(request: Request, fetched: seq<Row>): SearchPage
    requires request.pageSize >= 1
  {
    if |fetched| > request.pageSize then
      var items := fetched[..request.pageSize];
      SearchPage(items, Some(CursorAt(request.sort, items[|items| - 1])))
    else SearchPage(fetched, None)
  }

  /** Fetches one row too many to learn whether a next page exists. The last row
      of the truncated page always exists, because the size is at least one. */
  method Page(request: Request, fetched: seq<Row>) returns (page: SearchPage)
    requires request.pageSize >= 1
    ensures page == PageOf(request, fetched)
  {
    var items := fetched;
    var next := None;
    if |items| > request.pageSize {
      items := items[..request.pageSize];
      var last := items[|items| - 1];
      next := Some(Cursor(request.sort, last.key, last.id));
    }
    return SearchPage(items, next);
  }

  /** A page over one snapshot: its rows come first, the cursor marks the last of
      them, and exactly the rows after that cursor are still to come. */
  lemma PageSplitsRows(rows: set<Row>, request: Request, fetched: seq<Row>)
    requires request.pageSize >= 1
    requires Reads(rows, request.cursor, request.pageSize + 1, fetched)
    ensures var page := PageOf(request, fetched);
            && Ascending(page.items)
            && (forall r :: r in page.items ==> r in rows && After(request.cursor, r))
            && (page.next.Some? ==>
                  && |page.items| == request.pageSize
                  && page.next == Some(CursorAt(request.sort, page.items[|page.items| - 1]))
                  && fetched[request.pageSize] in rows && After(page.next, fetched[request.pageSize]))
            && (forall r :: r in rows && After(request.cursor, r) ==>
                  (r in page.items <==> page.next.None? || !After(page.next, r)))
  {
    var page := PageOf(request, fetched);
    if page.next.Some? {
      var n := request.pageSize;
      var last := page.items[n - 1];
      assert last == fetched[n - 1];
      forall r | r in rows && After(request.cursor, r) ensures r in page.items <==> !After(page.next, r) {
        if r in page.items {
          var i :| 0 <= i < n && page.items[i] == r;
          assert i == n - 1 || Before(fetched[i], fetched[n - 1]);
        } else if r in fetched {
          var i :| 0 <= i < |fetched| && fetched[i] == r;
          assert forall k :: 0 <= k < n ==> fetched[k] == page.items[k];
          assert Before(fetched[n - 1], fetched[i]);
        } else {
          assert Before(fetched[n - 1], r);
        }
      }
    }
  }

  // ---------------------------------------------------------------------------
  // Following the cursor while rows change
  // ---------------------------------------------------------------------------

  /** One request of a walk: the rows as they were when it was served, the page
      size it asked for, and what the reader returned. */
  datatype Visit = Visit(rows: set<Row>, size: nat, fetched: seq<Row>)

  function RequestOf(sort: Sort, cursor: Option<Cursor>, visit: Visit): (r: Request)
    ensures r.pageSize >= 1
  {
    NewRequest(sort, visit.size, cursor)
  }

  /** A completed walk from `cursor`: each request carries the cursor the page
      before it minted, and the last page minted none. */
  ghost predicate IsWalk(sort: Sort, cursor: Option<Cursor>, visits: seq<Visit>)
    decreases |visits|
  {
    && visits != []
    && var request := RequestOf(sort, cursor, visits[0]);
       var page := PageOf(request, visits[0].fetched);
       && Reads(visits[0].rows, request.cursor, request.pageSize + 1, visits[0].fetched)
       && if |visits| == 1 then page.next.None?
          else page.next.Some? && IsWalk(sort, page.next, visits[1..])
  }

  /** All rows a walk shows, page after page. */
  function Returned(sort: Sort, cursor: Option<Cursor>, visits: seq<Visit>): seq<Row>
    decreases |visits|
  {
    if visits == [] then []
    else
      var page := PageOf(RequestOf(sort, cursor, visits[0]), visits[0].fetched);
      page.items + Returned(sort, page.next, visits[1..])
  }

  ghost predicate Seen(visits: seq<Visit>, r: Row) {
    exists i :: 0 <= i < |visits| && r in visits[i].rows
  }

  /** Every row shown lies after the cursor and was there when a page was read. */
  lemma {:induction false} WalkShowsRows(sort: Sort, cursor: Option<Cursor>, visits: seq<Visit>, r: Row)
    requires IsWalk(sort, cursor, visits) && MintedFor(sort, cursor)
    requires r in Returned(sort, cursor, visits)
    ensures After(cursor, r) && Seen(visits, r)
    decreases |visits|
  {
    var request := RequestOf(sort, cursor, visits[0]);
    var page := PageOf(request, visits[0].fetched);
    PageSplitsRows(visits[0].rows, request, visits[0].fetched);
    if r !in page.items {
      WalkShowsRows(sort, page.next, visits[1..], r);
      assert After(request.cursor, page.items[|page.items| - 1]);
      var i :| 0 <= i < |visits[1..]| && r in visits[1..][i].rows;
      assert r in visits[i + 1].rows;
    }
  }

  /** Whatever happens to the rows between pages, the rows shown strictly ascend
      across all of them. */
  lemma {:induction false} WalkAscends(sort: Sort, cursor: Option<Cursor>, visits: seq<Visit>)
    requires IsWalk(sort, cursor, visits) && MintedFor(sort, cursor)
    ensures Ascending(Returned(sort, cursor, visits))
    decreases |visits|
  {
    var request := RequestOf(sort, cursor, visits[0]);
    var page := PageOf(request, visits[0].fetched);
    PageSplitsRows(visits[0].rows, request, visits[0].fetched);
    var rest := Returned(sort, page.next, visits[1..]);
    if |visits| > 1 {
      WalkAscends(sort, page.next, visits[1..]);
      forall r | r in rest ensures Before(page.items[|page.items| - 1], r) {
        WalkShowsRows(sort, page.next, visits[1..], r);
      }
    }
    AscendingConcat(page.items, rest);
  }

  lemma AscendingConcat(a: seq<Row>, b: seq<Row>)
    requires Ascending(a) && Ascending(b)
    requires forall r :: r in b && a != [] ==> Before(a[|a| - 1], r)
    ensures Ascending(a + b)
  {
    forall i, j | 0 <= i < j < |a + b| ensures Before((a + b)[i], (a + b)[j]) {
      if i < |a| <= j {
        assert b[j - |a|] in b;
        assert i == |a| - 1 || Before(a[i], a[|a| - 1]);
      }
    }
  }

  /** No row that stays, with its key, through the whole walk is skipped. */
  lemma {:induction false} WalkSkipsNothing(sort: Sort, cursor: Option<Cursor>, visits: seq<Visit>, r: Row)
    requires IsWalk(sort, cursor, visits) && MintedFor(sort, cursor)
    requires After(cursor, r)
    requires forall i :: 0 <= i < |visits| ==> r in visits[i].rows
    ensures r in Returned(sort, cursor, visits)
    decreases |visits|
  {
    var request := RequestOf(sort, cursor, visits[0]);
    var page := PageOf(request, visits[0].fetched);
    PageSplitsRows(visits[0].rows, request, visits[0].fetched);
    if r !in page.items {
      assert forall i :: 0 <= i < |visits[1..]| ==> visits[1..][i] == visits[i + 1];
      WalkSkipsNothing(sort, page.next, visits[1..], r);
    }
  }

  function Occurrences(shown: seq<Row>, id: int): nat {
    if shown == [] then 0
    else (if shown[0].id == id then 1 else 0) + Occurrences(shown[1..], id)
  }

  lemma {:induction false} OnceInAscending(shown: seq<Row>, r: Row)
    requires Ascending(shown) && r in shown
    requires forall q :: q in shown && q.id == r.id ==> q == r
    ensures Occurrences(shown, r.id) == 1
  {
    assert shown == [shown[0]] + shown[1..];
    assert Ascending(shown[1..]);
    if shown[0] == r {
      assert r !in shown[1..];
      NoOccurrence(shown[1..], r.id);
    } else {
      OnceInAscending(shown[1..], r);
    }
  }

  lemma {:induction false} NoOccurrence(shown: seq<Row>, id: int)
    requires forall q :: q in shown ==> q.id != id
    ensures Occurrences(shown, id) == 0
  {
    if shown == [] {
    } else {
      NoOccurrence(shown[1..], id);
    }
  }

  ghost predicate UniqueIds(rows: set<Row>) {
    forall a, b :: a in rows && b in rows && a.id == b.id ==> a == b
  }

  /** Rows may appear, disappear or change key between pages: a location present
      under one key throughout is shown exactly once. */
  lemma StableRowShownExactlyOnce(sort: Sort, visits: seq<Visit>, r: Row)
    requires IsWalk(sort, None, visits)
    requires forall i :: 0 <= i < |visits| ==> UniqueIds(visits[i].rows) && r in visits[i].rows
    ensures Occurrences(Returned(sort, None, visits), r.id) == 1
    ensures r in Returned(sort, None, visits)
  {
    WalkAscends(sort, None, visits);
    WalkSkipsNothing(sort, None, visits, r);
    forall q | q in Returned(sort, None, visits) && q.id == r.id ensures q == r {
      WalkShowsRows(sort, None, visits, q);
    }
    OnceInAscending(Returned(sort, None, visits), r);
  }

  lemma WalkEnds(sort: Sort, cursor: Option<Cursor>, visit: Visit)
    requires visit.size == 1 && MintedFor(sort, cursor) && |visit.fetched| <= 1
    requires Reads(visit.rows, cursor, 2, visit.fetched)
    ensures IsWalk(sort, cursor, [visit]) && Returned(sort, cursor, [visit]) == visit.fetched
  {
    assert [visit][1..] == [];
  }

  lemma WalkGoesOn(sort: Sort, cursor: Option<Cursor>, visit: Visit, rest: seq<Visit>)
    requires visit.size == 1 && MintedFor(sort, cursor) && |visit.fetched| == 2
    requires Reads(visit.rows, cursor, 2, visit.fetched)
    requires IsWalk(sort, Some(CursorAt(sort, visit.fetched[0])), rest)
    ensures IsWalk(sort, cursor, [visit] + rest)
    ensures Returned(sort, cursor, [visit] + rest) ==
              [visit.fetched[0]] + Returned(sort, Some(CursorAt(sort, visit.fetched[0])), rest)
  {
    assert ([visit] + rest)[1..] == rest;
    assert visit.fetched[..1] == [visit.fetched[0]];
  }

  /** Two rows read from a cursor before both, between them, and after both. */
  lemma ReadTwoRows(a: Row, b: Row, sort: Sort, cursor: Option<Cursor>)
    requires Before(a, b)
    ensures After(cursor, a) ==> Reads({a, b}, cursor, 2, [a, b])
    ensures Reads({a, b}, Some(CursorAt(sort, a)), 2, [b])
    ensures Reads({a, b}, Some(CursorAt(sort, b)), 2, [])
  {
  }

  lemma WalkPastForwardMove() returns (visits: seq<Visit>)
    ensures IsWalk(Distance, None, visits)
    ensures forall i :: 0 <= i < |visits| ==> Row(1.0, 1) in visits[i].rows || Row(9.0, 1) in visits[i].rows
    ensures Occurrences(Returned(Distance, None, visits), 1) == 2
  {
    var near, mid, far := Row(1.0, 1), Row(5.0, 2), Row(9.0, 1);
    var v0, v1, v2 := Visit({near, mid}, 1, [near, mid]), Visit({mid, far}, 1, [mid, far]), Visit({mid, far}, 1, [far]);
    var past := Some(CursorAt(Distance, near));
    ReadTwoRows(near, mid, Distance, None);
    ReadTwoRows(mid, far, Distance, past);
    WalkEnds(Distance, Some(CursorAt(Distance, mid)), v2);
    WalkGoesOn(Distance, past, v1, [v2]);
    WalkGoesOn(Distance, None, v0, [v1] + [v2]);
    visits := [v0] + ([v1] + [v2]);
    TwoOfThree(near, mid, far);
    assert Returned(Distance, None, visits) == [near] + ([mid] + [far]) == [near, mid, far];
  }

  lemma TwoOfThree(a: Row, b: Row, c: Row)
    requires a.id == c.id != b.id
    ensures Occurrences([a, b, c], a.id) == 2
  {
    assert [c][1..] == [] && Occurrences([c], a.id) == 1;
    assert [b, c][1..] == [c] && Occurrences([b, c], a.id) == 1;
    assert [a, b, c][1..] == [b, c];
  }

  /** Keeping its key is needed: a location that moves forward past the cursor is
      shown again. */
  lemma ForwardMoveIsShownTwice()
    ensures exists visits: seq<Visit> ::
              && IsWalk(Distance, None, visits)
              && (forall i :: 0 <= i < |visits| ==> Row(1.0, 1) in visits[i].rows || Row(9.0, 1) in visits[i].rows)
              && Occurrences(Returned(Distance, None, visits), 1) == 2
  {
    var visits := WalkPastForwardMove();
  }

  lemma WalkPastBackwardMove() returns (visits: seq<Visit>)
    ensures IsWalk(Distance, None, visits)
    ensures forall i :: 0 <= i < |visits| ==> Row(5.0, 2) in visits[i].rows || Row(0.0, 2) in visits[i].rows
    ensures Occurrences(Returned(Distance, None, visits), 2) == 0
  {
    var near, mid, back := Row(1.0, 1), Row(5.0, 2), Row(0.0, 2);
    var v0, v1 := Visit({near, mid}, 1, [near, mid]), Visit({near, back}, 1, []);
    ReadTwoRows(near, mid, Distance, None);
    ReadTwoRows(back, near, Distance, None);
    assert {near, back} == {back, near};
    WalkEnds(Distance, Some(CursorAt(Distance, near)), v1);
    WalkGoesOn(Distance, None, v0, [v1]);
    visits := [v0] + [v1];
    NoOccurrence([near], 2);
    assert Returned(Distance, None, visits) == [near] + [] == [near];
  }

  /** And one that moves back behind it is never shown. */
  lemma BackwardMoveIsNeverShown()
    ensures exists visits: seq<Visit> ::
              && IsWalk(Distance, None, visits)
              && (forall i :: 0 <= i < |visits| ==> Row(5.0, 2) in visits[i].rows || Row(0.0, 2) in visits[i].rows)
              && Occurrences(Returned(Distance, None, visits), 2) == 0
  {
    var visits := WalkPastBackwardMove();
  }

  // ---------------------------------------------------------------------------
  // A fixed row set
  // ---------------------------------------------------------------------------

  ghost function RowsAfter(rows: set<Row>, cursor: Option<Cursor>): set<Row> {
    set r | r in rows && After(cursor, r)
  }

  ghost predicate Enumerates(s: seq<Row>, rows: set<Row>) {
    Ascending(s) && forall r :: r in s <==> r in rows
  }

  lemma {:induction false} EnumerationSize(s: seq<Row>, rows: set<Row>)
    requires Enumerates(s, rows)
    ensures |s| == |rows|
  {
    if s == [] {
      assert rows == {};
    } else {
      assert s == [s[0]] + s[1..];
      assert s[0] !in s[1..];
      EnumerationSize(s[1..], rows - {s[0]});
    }
  }

  lemma {:induction false} EnumerationUnique(a: seq<Row>, b: seq<Row>)
    requires Ascending(a) && Ascending(b)
    requires forall r :: r in a <==> r in b
    ensures a == b
  {
    assert (a != [] ==> a[0] in a) && (b != [] ==> b[0] in b);
    if a != [] && b != [] {
      assert a == [a[0]] + a[1..] && b == [b[0]] + b[1..];
      assert a[0] in b && b[0] in a;
      assert a[0] == b[0];
      assert a[0] !in a[1..] && b[0] !in b[1..];
      forall r ensures r in a[1..] <==> r in b[1..] {
        assert r in a <==> r == a[0] || r in a[1..];
        assert r in b <==> r == b[0] || r in b[1..];
      }
      EnumerationUnique(a[1..], b[1..]);
    }
  }

  /** `pages` is max(1, ceil(n / size)). */
  ghost predicate IsPageCount(pages: nat, n: nat, size: nat) {
    if n == 0 then pages == 1 else (pages - 1) * size < n <= pages * size
  }

  ghost predicate OnFixedRows(visits: seq<Visit>, rows: set<Row>, size: nat) {
    forall i :: 0 <= i < |visits| ==> visits[i].rows == rows && visits[i].size == size
  }

  /** On a fixed row set a walk shows the whole sorted result. */
  lemma FixedRowsShown(sort: Sort, cursor: Option<Cursor>, visits: seq<Visit>, rows: set<Row>, size: nat)
    requires IsWalk(sort, cursor, visits) && MintedFor(sort, cursor) && OnFixedRows(visits, rows, size)
    ensures Enumerates(Returned(sort, cursor, visits), RowsAfter(rows, cursor))
  {
    WalkAscends(sort, cursor, visits);
    forall r ensures r in Returned(sort, cursor, visits) <==> r in RowsAfter(rows, cursor) {
      if r in Returned(sort, cursor, visits) {
        WalkShowsRows(sort, cursor, visits, r);
      }
      if r in RowsAfter(rows, cursor) {
        WalkSkipsNothing(sort, cursor, visits, r);
      }
    }
  }

  /** And it takes max(1, ceil(n / page size)) pages. */
  lemma {:induction false} FixedRowsPages(sort: Sort, cursor: Option<Cursor>, visits: seq<Visit>, rows: set<Row>,
                                          size: nat)
    requires IsWalk(sort, cursor, visits) && MintedFor(sort, cursor) && OnFixedRows(visits, rows, size)
    ensures IsPageCount(|visits|, |RowsAfter(rows, cursor)|, NewRequest(sort, size, cursor).pageSize)
    decreases |visits|
  {
    var request := RequestOf(sort, cursor, visits[0]);
    var page := PageOf(request, visits[0].fetched);
    PageSplitsRows(rows, request, visits[0].fetched);
    FixedRowsShown(sort, cursor, visits, rows, size);
    EnumerationSize(Returned(sort, cursor, visits), RowsAfter(rows, cursor));
    var rest := Returned(sort, page.next, visits[1..]);
    if |visits| == 1 {
      assert rest == [];
    } else {
      FixedRowsShown(sort, page.next, visits[1..], rows, size);
      EnumerationSize(rest, RowsAfter(rows, page.next));
      FixedRowsPages(sort, page.next, visits[1..], rows, size);
      assert visits[0].fetched[request.pageSize] in rest;
      OneMorePage(|visits| - 1, |rest|, request.pageSize);
    }
  }

  lemma OneMorePage(pages: nat, rest: nat, size: nat)
    requires IsPageCount(pages, rest, size) && rest >= 1
    ensures IsPageCount(pages + 1, rest + size, size)
  {
    assert (pages + 1) * size == pages * size + size && (pages - 1) * size == pages * size - size;
  }

  // --- Such a walk always exists, so following the cursor terminates ---------

  lemma {:induction false} HasFirst(rows: set<Row>) returns (first: Row)
    requires rows != {}
    ensures first in rows && forall r :: r in rows ==> r == first || Before(first, r)
  {
    var x :| x in rows;
    if rows == {x} {
      first := x;
    } else {
      var rest := rows - {x};
      assert rows == rest + {x};
      var least := HasFirst(rest);
      first := if Before(x, least) then x else least;
    }
  }

  /** The whole result in order. */
  ghost function Sorted(rows: set<Row>): (s: seq<Row>)
    ensures Enumerates(s, rows)
  {
    if rows == {} then []
    else
      assert exists first :: IsFirst(first, rows) by { var first := HasFirst(rows); assert IsFirst(first, rows); }
      var first :| IsFirst(first, rows);
      var s := [first] + Sorted(rows - {first});
      assert Ascending(s) by { AscendingConcat([first], Sorted(rows - {first})); }
      s
  }

  ghost predicate IsFirst(first: Row, rows: set<Row>) {
    first in rows && forall r :: r in rows ==> r == first || Before(first, r)
  }

  /** What a reader that keeps the contract returns for one request. */
  ghost function Fetch(rows: set<Row>, cursor: Option<Cursor>, limit: nat): (items: seq<Row>)
    ensures Reads(rows, cursor, limit, items)
  {
    var all := Sorted(RowsAfter(rows, cursor));
    var items := if |all| <= limit then all else all[..limit];
    assert forall r :: r in items ==> r in all;
    assert forall r :: r in all && r !in items ==> exists i :: limit <= i < |all| && all[i] == r;
    items
  }

  ghost function FollowCursor(sort: Sort, cursor: Option<Cursor>, rows: set<Row>, size: nat): (visits: seq<Visit>)
    requires MintedFor(sort, cursor)
    ensures IsWalk(sort, cursor, visits)
    ensures OnFixedRows(visits, rows, size)
    decreases |RowsAfter(rows, cursor)|
  {
    var request := NewRequest(sort, size, cursor);
    var visit := Visit(rows, size, Fetch(rows, cursor, request.pageSize + 1));
    var page := PageOf(request, visit.fetched);
    if page.next.None? then [visit]
    else
      PageSplitsRows(rows, request, visit.fetched);
      assert RowsAfter(rows, page.next) < RowsAfter(rows, cursor) by {
        var last := page.items[|page.items| - 1];
        assert last in RowsAfter(rows, cursor) && last !in RowsAfter(rows, page.next);
        assert forall r :: After(page.next, r) ==> After(cursor, r);
      }
      SmallerSet(RowsAfter(rows, page.next), RowsAfter(rows, cursor));
      var rest := FollowCursor(sort, page.next, rows, size);
      assert ([visit] + rest)[1..] == rest;
      [visit] + rest
  }

  lemma SmallerSet(a: set<Row>, b: set<Row>)
    requires a < b
    ensures |a| < |b|
  {
    assert |b| == |a| + |b - a| by { assert b == a + (b - a); }
    var x :| x in b && x !in a;
    assert x in b - a;
  }

  /** Following `next_cursor` from page one over fixed rows ends, after exactly
      the expected number of pages, having shown the sorted result. */
  lemma FollowingTheCursorShowsEverything(sort: Sort, rows: set<Row>, size: nat)
    ensures var visits := FollowCursor(sort, None, rows, size);
            && IsWalk(sort, None, visits)
            && Returned(sort, None, visits) == Sorted(rows)
            && IsPageCount(|visits|, |rows|, NewRequest(sort, size, None).pageSize)
  {
    var visits := FollowCursor(sort, None, rows, size);
    FixedRowsShown(sort, None, visits, rows, size);
    FixedRowsPages(sort, None, visits, rows, size);
    assert RowsAfter(rows, None) == rows;
    EnumerationUnique(Returned(sort, None, visits), Sorted(rows));
  }
}
