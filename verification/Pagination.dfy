/** Keyset pagination over the rejected records of an import, also while records are being inserted. */
module Pagination {
  import opened Prelude

  type RecordId = int   // the position of a record's id in the text order of ids
  type ImportId = string

  datatype Record = Record(importId: ImportId, lineNumber: nat, errorCode: string)
  type Table = map<RecordId, Record>

  datatype Page = Page(items: seq<RecordId>, nextCursor: Option<RecordId>)

  const MAX_PAGE_SIZE := 200
  const DEFAULT_PAGE_SIZE := 50

  datatype Requested = Undefined | NotFinite | Finite(value: real)

  // Any request yields a usable page size, and a valid one the largest size it allows.
  function ClampLimit(requested: Requested): (limit: nat)
    ensures 1 <= limit <= 200
    ensures requested.Finite? && requested.value >= 1.0 ==>
              limit as real <= requested.value && (limit < 200 ==> requested.value < limit as real + 1.0)
    ensures !(requested.Finite? && requested.value >= 1.0) ==> limit == 50
  {
    if !requested.Finite? || requested.value < 1.0 then DEFAULT_PAGE_SIZE
    else Min(requested.value.Floor, MAX_PAGE_SIZE)
  }

  function Matching(t: Table, id: ImportId, cursor: Option<RecordId>): set<RecordId> {
    set r | r in t && t[r].importId == id && (cursor.Some? ==> r > cursor.value)
  }

  // A page is taken from the records of its import behind the cursor, and from no others.
  lemma MatchingIff(t: Table, id: ImportId, cursor: Option<RecordId>, r: RecordId)
    ensures r in Matching(t, id, cursor) <==>
            r in t && t[r].importId == id && (cursor == None || r > cursor.value)
  {}

  lemma Pick<T>(s: set<T>) returns (x: T)
    requires s != {}
    ensures x in s
  {
    x :| x in s;
  }

  lemma {:induction false} LeastExists(s: set<RecordId>)
    requires s != {}
    ensures exists m :: m in s && forall r :: r in s ==> m <= r
    decreases |s|
  {
    var x := Pick(s);
    var rest := s - {x};
    if rest == {} {
      assert s == {x};
      assert x in s && forall r :: r in s ==> x <= r;
    } else {
      LeastExists(rest);
      var m :| m in rest && forall r :: r in rest ==> m <= r;
      var least := Min(x, m);
      assert forall r :: r in s ==> r == x || r in rest;
      assert least in s && forall r :: r in s ==> least <= r;
    }
  }

  ghost function Least(s: set<RecordId>): (m: RecordId)
    requires s != {}
    ensures m in s && forall r :: r in s ==> m <= r
  {
    LeastExists(s);
    var m :| m in s && forall r :: r in s ==> m <= r;
    m
  }

  // ORDER BY id ASC
  ghost function Sorted(s: set<RecordId>): (rows: seq<RecordId>)
    ensures |rows| == |s|
    decreases |s|
  {
    if s == {} then [] else [Least(s)] + Sorted(s - {Least(s)})
  }

  ghost function GetRejectedRecords(t: Table, id: ImportId, cursor: Option<RecordId>, limit: nat): Page
    requires limit >= 1
  {
    var all := Sorted(Matching(t, id, cursor));
    var rows := all[..Min(limit + 1, |all|)];
    var hasMore := |rows| > limit;
    var items := if hasMore then rows[..limit] else rows;
    Page(items, if hasMore then Some(items[|items| - 1]) else None)
  }

  ghost predicate Increasing(rows: seq<RecordId>) { forall i, j :: 0 <= i < j < |rows| ==> rows[i] < rows[j] }

  lemma {:induction false} SortedIsIncreasing(s: set<RecordId>)
    ensures Increasing(Sorted(s))
    ensures forall r :: r in Sorted(s) <==> r in s
    decreases |s|
  {
    if s != {} {
      var m := Least(s);
      SortedIsIncreasing(s - {m});
      var rest := Sorted(s - {m});
      assert Sorted(s) == [m] + rest;
      forall i, j | 0 <= i < j < |Sorted(s)| ensures Sorted(s)[i] < Sorted(s)[j] {
        assert rest[j - 1] in s - {m};
      }
    }
  }

  lemma HeadIn<T>(s: seq<T>)
    requires s != []
    ensures s[0] in s
  {}

  lemma {:induction false} IncreasingIsSorted(a: seq<RecordId>, b: seq<RecordId>)
    requires Increasing(a) && Increasing(b) && (forall r :: r in a <==> r in b)
    ensures a == b
    decreases |a|
  {
    if a != [] {
      assert a[0] in a;
      var k :| 0 <= k < |b| && b[k] == a[0];
      assert b[0] in b;
      var l :| 0 <= l < |a| && a[l] == b[0];
      assert a[0] == b[0];
      forall r ensures r in a[1..] <==> r in b[1..] {
        assert a == [a[0]] + a[1..] && b == [b[0]] + b[1..];
        assert r in a <==> r == a[0] || r in a[1..];
        assert r in b <==> r == b[0] || r in b[1..];
      }
      IncreasingIsSorted(a[1..], b[1..]);
    } else if b != [] {
      HeadIn(b);
    }
  }

  // What sorts after the limit-th row is what matches its id as the cursor.
  lemma RestMembers(t: Table, id: ImportId, cursor: Option<RecordId>, all: seq<RecordId>, limit: nat, r: RecordId)
    requires 1 <= limit < |all| && Increasing(all) && (forall x :: x in all <==> x in Matching(t, id, cursor))
    ensures r in all[limit..] <==> r in Matching(t, id, Some(all[limit - 1]))
  {
    var c, rest := all[limit - 1], all[limit..];
    assert c in all;
    if r in Matching(t, id, Some(c)) {
      assert r in Matching(t, id, cursor);
      var i :| 0 <= i < |all| && all[i] == r;
      assert i >= limit;
      assert r == rest[i - limit];
    }
    if r in rest {
      var i :| 0 <= i < |rest| && rest[i] == r;
      assert all[limit + i] == r && r in all;
    }
  }

  lemma RestAfter(t: Table, id: ImportId, cursor: Option<RecordId>, limit: nat)
    requires 1 <= limit < |Sorted(Matching(t, id, cursor))|
    ensures var all := Sorted(Matching(t, id, cursor)); Sorted(Matching(t, id, Some(all[limit - 1]))) == all[limit..]
  {
    var all := Sorted(Matching(t, id, cursor));
    SortedIsIncreasing(Matching(t, id, cursor));
    var later := Matching(t, id, Some(all[limit - 1]));
    SortedIsIncreasing(later);
    forall r ensures r in all[limit..] <==> r in Sorted(later) {
      RestMembers(t, id, cursor, all, limit, r);
    }
    IncreasingIsSorted(Sorted(later), all[limit..]);
  }

  // A page is the start of what matches, and its cursor is where the rest begins.
  lemma PageSplits(t: Table, id: ImportId, cursor: Option<RecordId>, limit: nat)
    requires limit >= 1
    ensures var page, all := GetRejectedRecords(t, id, cursor, limit), Sorted(Matching(t, id, cursor));
            && page.items == all[..Min(limit, |all|)]
            && (page.nextCursor.Some? <==> |all| > limit)
            && (page.nextCursor.Some? ==>
                  && page.nextCursor.value == all[limit - 1]
                  && Sorted(Matching(t, id, page.nextCursor)) == all[limit..])
  {
    var all := Sorted(Matching(t, id, cursor));
    if |all| > limit {
      assert all[..limit + 1][..limit] == all[..limit];
      RestAfter(t, id, cursor, limit);
    }
  }

  // ---- A fixed table

  ghost function WalkAll(t: Table, id: ImportId, cursor: Option<RecordId>, limit: nat): seq<seq<RecordId>>
    requires limit >= 1
    decreases |Matching(t, id, cursor)|
  {
    var page := GetRejectedRecords(t, id, cursor, limit);
    PageSplits(t, id, cursor, limit);
    if page.nextCursor.None? then [page.items] else [page.items] + WalkAll(t, id, page.nextCursor, limit)
  }

  lemma FlattenCons<T>(head: seq<T>, rest: seq<seq<T>>)
    ensures Flatten([head] + rest) == head + Flatten(rest)
  {
    assert ([head] + rest)[1..] == rest;
  }

  // The pages of a walk together are all that matches, in as few pages as the limit allows.
  lemma {:induction false} WalkFlattens(t: Table, id: ImportId, cursor: Option<RecordId>, limit: nat)
    requires limit >= 1
    ensures var pages, all := WalkAll(t, id, cursor, limit), Sorted(Matching(t, id, cursor));
            && Flatten(pages) == all
            && |pages| >= 1 && |all| <= |pages| * limit
            && (|pages| > 1 ==> (|pages| - 1) * limit < |all|)
    decreases |Matching(t, id, cursor)|
  {
    var page := GetRejectedRecords(t, id, cursor, limit);
    var all := Sorted(Matching(t, id, cursor));
    PageSplits(t, id, cursor, limit);
    if page.nextCursor.Some? {
      WalkFlattens(t, id, page.nextCursor, limit);
      var rest := WalkAll(t, id, page.nextCursor, limit);
      assert all == all[..limit] + all[limit..];
      FlattenCons(page.items, rest);
      OneMorePage(|all|, |rest|, limit);
    } else {
      assert all[..|all|] == all;
      FlattenCons(page.items, []);
      assert [page.items] + [] == [page.items];
    }
  }

  // Following the cursor yields the import's records sorted, each once, in max(1, ceil(n / limit)) pages.
  lemma WalkIsComplete(t: Table, id: ImportId, cursor: Option<RecordId>, limit: nat)
    requires limit >= 1
    ensures var pages := WalkAll(t, id, cursor, limit);
            var rows := Flatten(pages);
            && Increasing(rows)
            && (forall r :: r in rows <==> r in t && t[r].importId == id && (cursor == None || r > cursor.value))
            && |pages| >= 1 && |rows| <= |pages| * limit
            && (|pages| > 1 ==> (|pages| - 1) * limit < |rows|)
  {
    WalkFlattens(t, id, cursor, limit);
    SortedIsIncreasing(Matching(t, id, cursor));
  }

  lemma OneMorePage(n: nat, pages: nat, limit: nat)
    requires n > limit >= 1 && pages >= 1 && n - limit <= pages * limit
    requires pages > 1 ==> (pages - 1) * limit < n - limit
    ensures n <= (pages + 1) * limit && pages * limit < n
  {
    assert (pages + 1) * limit == pages * limit + limit;
    assert pages * limit == (pages - 1) * limit + limit;
  }

  // ---- A table that grows between the pages

  ghost predicate Extends(t: Table, u: Table) { forall r :: r in t ==> r in u && u[r] == t[r] }

  ghost predicate Grows(tables: seq<Table>) {
    forall i :: 0 < i < |tables| ==> Extends(tables[i - 1], tables[i])
  }

  // The i-th page is read from the i-th table; the walk ends at the first page without a cursor.
  ghost function Walk(tables: seq<Table>, id: ImportId, cursor: Option<RecordId>, limit: nat): seq<Page>
    requires limit >= 1
  {
    if tables == [] then [] else
      var page := GetRejectedRecords(tables[0], id, cursor, limit);
      [page] + if page.nextCursor.None? then [] else Walk(tables[1..], id, page.nextCursor, limit)
  }

  ghost function Items(pages: seq<Page>): seq<RecordId> {
    if pages == [] then [] else pages[0].items + Items(pages[1..])
  }

  ghost predicate Finished(pages: seq<Page>) { pages != [] && pages[|pages| - 1].nextCursor.None? }

  lemma PrefixOfIncreasing(all: seq<RecordId>, n: nat)
    requires Increasing(all) && n <= |all|
    ensures Increasing(all[..n])
    ensures forall r :: r in all[..n] ==> r in all && r <= all[n - 1]
  {
    forall r | r in all[..n] ensures r in all && r <= all[n - 1] {
      var i :| 0 <= i < n && all[..n][i] == r;
      assert all[i] == r;
    }
  }

  // A page holds, in order, only what matches, up to its cursor...
  lemma PageWithin(t: Table, id: ImportId, cursor: Option<RecordId>, limit: nat)
    requires limit >= 1
    ensures var page := GetRejectedRecords(t, id, cursor, limit);
            && Increasing(page.items)
            && (forall r :: r in page.items ==> r in Matching(t, id, cursor))
            && (forall r :: r in page.items && page.nextCursor.Some? ==> r <= page.nextCursor.value)
            && (page.nextCursor.Some? && cursor.Some? ==> cursor.value < page.nextCursor.value)
  {
    var page, all := GetRejectedRecords(t, id, cursor, limit), Sorted(Matching(t, id, cursor));
    PageSplits(t, id, cursor, limit);
    SortedIsIncreasing(Matching(t, id, cursor));
    PrefixOfIncreasing(all, Min(limit, |all|));
    if page.nextCursor.Some? { assert all[limit - 1] in all; }
  }

  // ...and all of it.
  lemma PageCovers(t: Table, id: ImportId, cursor: Option<RecordId>, limit: nat, r: RecordId)
    requires limit >= 1 && r in Matching(t, id, cursor)
    ensures var page := GetRejectedRecords(t, id, cursor, limit);
            (page.nextCursor.Some? && page.nextCursor.value < r) || r in page.items
  {
    var page, all := GetRejectedRecords(t, id, cursor, limit), Sorted(Matching(t, id, cursor));
    PageSplits(t, id, cursor, limit);
    SortedIsIncreasing(Matching(t, id, cursor));
    var i :| 0 <= i < |all| && all[i] == r;
    if i < limit { assert page.items[i] == r; }
  }

  lemma WalkStep(tables: seq<Table>, id: ImportId, cursor: Option<RecordId>, limit: nat)
    requires limit >= 1 && tables != []
    ensures var page, pages := GetRejectedRecords(tables[0], id, cursor, limit), Walk(tables, id, cursor, limit);
            var rest := if page.nextCursor.None? then [] else Walk(tables[1..], id, page.nextCursor, limit);
            && pages == [page] + rest && Items(pages) == page.items + Items(rest)
            && (Finished(pages) <==> page.nextCursor.None? || Finished(rest))
  {
    var page, pages := GetRejectedRecords(tables[0], id, cursor, limit), Walk(tables, id, cursor, limit);
    var rest := if page.nextCursor.None? then [] else Walk(tables[1..], id, page.nextCursor, limit);
    assert pages == [page] + rest;
    assert pages[1..] == rest;
  }

  lemma Concatenates(a: seq<RecordId>, b: seq<RecordId>, middle: RecordId)
    requires Increasing(a) && Increasing(b)
    requires (forall r :: r in a ==> r <= middle) && (forall r :: r in b ==> r > middle)
    ensures Increasing(a + b)
  {
    assert forall i :: 0 <= i < |a| ==> a[i] in a;
    assert forall i :: 0 <= i < |b| ==> b[i] in b;
  }

  // Never a repeat, and nothing present from the start is missed once the walk has finished.
  lemma {:induction false} GrowingWalk(tables: seq<Table>, id: ImportId, cursor: Option<RecordId>, limit: nat)
    requires limit >= 1 && Grows(tables)
    ensures var items := Items(Walk(tables, id, cursor, limit));
            && Increasing(items)
            && (cursor.Some? ==> forall r :: r in items ==> r > cursor.value)
            && (forall r :: r in items ==>
                  exists i :: 0 <= i < |tables| && r in tables[i] && tables[i][r].importId == id)
            && (Finished(Walk(tables, id, cursor, limit)) ==>
                  forall r :: r in tables[0] && tables[0][r].importId == id && (cursor == None || r > cursor.value) ==>
                    r in items)
  {
    if tables != [] {
      var page := GetRejectedRecords(tables[0], id, cursor, limit);
      PageWithin(tables[0], id, cursor, limit);
      forall r | r in Matching(tables[0], id, cursor)
        ensures (page.nextCursor.Some? && page.nextCursor.value < r) || r in page.items
      {
        PageCovers(tables[0], id, cursor, limit, r);
      }
      WalkStep(tables, id, cursor, limit);
      if page.nextCursor.Some? {
        var later, c := tables[1..], page.nextCursor.value;
        var rest := Walk(later, id, page.nextCursor, limit);
        assert forall i :: 0 <= i < |later| ==> later[i] == tables[i + 1];
        GrowingWalk(later, id, page.nextCursor, limit);
        Concatenates(page.items, Items(rest), c);
        forall r | r in Items(rest)
          ensures exists i :: 0 <= i < |tables| && r in tables[i] && tables[i][r].importId == id
        {
          var i :| 0 <= i < |later| && r in later[i] && later[i][r].importId == id;
          assert later[i] == tables[i + 1];
        }
        if Finished(rest) {
          assert Extends(tables[0], later[0]);
          forall r | r in Matching(tables[0], id, cursor) ensures r in page.items + Items(rest) {
            if r > c { assert r in Matching(later[0], id, page.nextCursor); }
          }
        }
      }
    }
  }
}
