/**
Keyset pagination: rows ordered by timestamp and id, newest first, fetched page by page
with the key of the last row of one page bounding the next.  The table may change between
two fetches.
*/
module Pagination {
  import opened Common

  // ---------------------------------------------------------------- the order of keys

  datatype Key = Key(ts: int, id: string)

  predicate TextLess(a: string, b: string) {
    if b == "" then false
    else if a == "" then true
    else a[0] < b[0] || (a[0] == b[0] && TextLess(a[1..], b[1..]))
  }

  predicate Less(a: Key, b: Key) {
    a.ts < b.ts || (a.ts == b.ts && TextLess(a.id, b.id))
  }

  lemma {:induction false} TextOrder(a: string, b: string, c: string)
    ensures !TextLess(a, a)
    ensures TextLess(a, b) && TextLess(b, c) ==> TextLess(a, c)
    ensures a == b || TextLess(a, b) || TextLess(b, a)
    decreases |a| + |b| + |c|
  {
    if a != "" && b != "" {
      TextOrder(a[1..], b[1..], if c == "" then "" else c[1..]);
      assert a == [a[0]] + a[1..] && b == [b[0]] + b[1..];
    } else if a != "" {
      TextOrder(a[1..], "", "");
    }
  }

  /** `Less` is a strict total order, so `Less(a, b)` excludes `Less(b, a)`. */
  lemma KeyOrder(a: Key, b: Key, c: Key)
    ensures !Less(a, a)
    ensures Less(a, b) && Less(b, c) ==> Less(a, c)
    ensures a == b || Less(a, b) || Less(b, a)
  {
    TextOrder(a.id, b.id, c.id);
  }

  /** Where two texts first differ; the length of the shorter when it starts the other. */
  function FirstDifference(a: string, b: string): (k: nat)
    ensures k <= |a| && k <= |b| && a[..k] == b[..k]
    ensures k < |a| && k < |b| ==> a[k] != b[k]
  {
    if a == "" || b == "" || a[0] != b[0] then 0 else 1 + FirstDifference(a[1..], b[1..])
  }

  /** A text comes before the texts it starts, and before those greater at the first difference. */
  lemma {:induction false} TextLessIs(a: string, b: string)
    ensures var k := FirstDifference(a, b);
            TextLess(a, b) <==> k < |b| && (k == |a| || a[k] < b[k])
  {
    if a != "" && b != "" && a[0] == b[0] { TextLessIs(a[1..], b[1..]); }
  }

  // ---------------------------------------------------------------- tables and their rows in order

  datatype Row<D> = Row(key: Key, data: D)

  ghost predicate Distinct<D>(table: seq<Row<D>>) {
    forall i, j :: 0 <= i < j < |table| ==> table[i].key != table[j].key
  }

  ghost predicate Descending<D>(rows: seq<Row<D>>) {
    forall i, j :: 0 <= i < j < |rows| ==> Less(rows[j].key, rows[i].key)
  }

  /** Keys strictly below the bound, if there is one. */
  predicate Below(k: Key, bound: Option<Key>) {
    bound.None? || Less(k, bound.value)
  }

  predicate Wanted<D>(r: Row<D>, p: Row<D> -> bool, bound: Option<Key>) {
    p(r) && Below(r.key, bound)
  }

  function Insert<D>(r: Row<D>, rows: seq<Row<D>>): seq<Row<D>> {
    if rows == [] || Less(rows[0].key, r.key) then [r] + rows
    else [rows[0]] + Insert(r, rows[1..])
  }

  /** The rows a query wants, by descending key. */
  function Select<D>(table: seq<Row<D>>, p: Row<D> -> bool, bound: Option<Key>): seq<Row<D>> {
    if table == [] then []
    else
      var rest := Select(table[1..], p, bound);
      if Wanted(table[0], p, bound) then Insert(table[0], rest) else rest
  }

  ghost predicate OneMore<D(!new)>(s: seq<Row<D>>, r: Row<D>, rows: seq<Row<D>>) {
    forall x :: x in s <==> x == r || x in rows
  }

  /** `s` has exactly the wanted rows of the table. */
  ghost predicate HasWanted<D(!new)>(s: seq<Row<D>>, table: seq<Row<D>>, p: Row<D> -> bool, bound: Option<Key>) {
    forall r :: r in s <==> r in table && Wanted(r, p, bound)
  }

  lemma {:induction false} InsertFacts<D(!new)>(r: Row<D>, rows: seq<Row<D>>)
    requires Descending(rows) && forall x :: x in rows ==> x.key != r.key
    ensures Descending(Insert(r, rows))
    ensures OneMore(Insert(r, rows), r, rows)
  {
    if rows == [] {
    } else if Less(rows[0].key, r.key) {
      forall x | x in rows ensures Less(x.key, r.key) {
        KeyOrder(x.key, rows[0].key, r.key);
      }
    } else {
      var rest := rows[1..];
      InsertFacts(r, rest);
      assert rows == [rows[0]] + rest;
      assert rows[0] in rows;
      KeyOrder(r.key, rows[0].key, rows[0].key);
      forall x | x in Insert(r, rest) ensures Less(x.key, rows[0].key) {
        if x != r {
          assert x in rest;
          var i :| 0 <= i < |rest| && rest[i] == x;
          assert rows[i + 1] == x;
        }
      }
    }
  }

  /** `Select` orders exactly the wanted rows of the table. */
  lemma {:induction false} SelectFacts<D(!new)>(table: seq<Row<D>>, p: Row<D> -> bool, bound: Option<Key>)
    requires Distinct(table)
    ensures Descending(Select(table, p, bound))
    ensures HasWanted(Select(table, p, bound), table, p, bound)
  {
    if table != [] {
      var rest := table[1..];
      SelectFacts(rest, p, bound);
      forall x | x in Select(rest, p, bound) ensures x.key != table[0].key {
        assert x in rest;
        var i :| 0 <= i < |rest| && rest[i] == x;
        assert table[i + 1] == x;
      }
      InsertFacts(table[0], Select(rest, p, bound));
    }
  }

  /** A descending list is settled by which rows it has. */
  lemma {:induction false} OrderedOneWay<D(!new)>(a: seq<Row<D>>, b: seq<Row<D>>)
    requires Descending(a) && Descending(b)
    requires forall r :: r in a <==> r in b
    ensures a == b
  {
    if a != [] { assert a[0] in a && a[0] in b; }
    if b != [] { assert b[0] in b && b[0] in a; }
    if a != [] {
      KeyOrder(a[0].key, b[0].key, a[0].key);
      HeadIsGreatest(a, b[0]);
      HeadIsGreatest(b, a[0]);
      KeyOrder(b[0].key, a[0].key, b[0].key);
      assert a[0] == b[0];
      TailRows(a);
      TailRows(b);
      OrderedOneWay(a[1..], b[1..]);
      assert a == [a[0]] + a[1..] && b == [b[0]] + b[1..];
    }
  }

  lemma HeadIsGreatest<D(!new)>(a: seq<Row<D>>, r: Row<D>)
    requires Descending(a) && r in a
    ensures r == a[0] || Less(r.key, a[0].key)
  {
    var i :| 0 <= i < |a| && a[i] == r;
    if i > 0 { assert Less(a[i].key, a[0].key); }
  }

  lemma TailRows<D(!new)>(a: seq<Row<D>>)
    requires Descending(a) && a != []
    ensures Descending(a[1..])
    ensures forall r :: r in a[1..] <==> r in a && r != a[0]
  {
    forall r | r in a[1..] ensures r in a && r != a[0] {
      var i :| 0 <= i < |a| - 1 && a[1..][i] == r;
      assert a[i + 1] == r;
      KeyOrder(a[0].key, a[0].key, a[0].key);
    }
    forall r | r in a && r != a[0] ensures r in a[1..] {
      var i :| 0 <= i < |a| && a[i] == r;
      assert a[1..][i - 1] == r;
    }
  }

  // ---------------------------------------------------------------- one page

  datatype Page<D> = Page(rows: seq<Row<D>>, next: Option<Key>)

  /** One row more than the page holds is fetched, to see whether there is a next page. */
  function PageOf<D>(fetched: seq<Row<D>>, limit: int): Page<D>
    requires limit >= 1
  {
    if |fetched| > limit then Page(fetched[..limit], Some(fetched[limit - 1].key)) else Page(fetched, None)
  }

  function Prefix<T>(s: seq<T>, n: int): seq<T>
    requires n >= 0
  {
    if |s| > n then s[..n] else s
  }

  function FetchPage<D>(table: seq<Row<D>>, p: Row<D> -> bool, bound: Option<Key>, limit: int): Page<D>
    requires limit >= 1
  {
    PageOf(Prefix(Select(table, p, bound), limit + 1), limit)
  }

  /** A page is the first `limit` wanted rows, and its cursor is the last of them, given when more are wanted. */
  lemma PageFacts<D(!new)>(table: seq<Row<D>>, p: Row<D> -> bool, bound: Option<Key>, limit: int)
    requires limit >= 1
    ensures var all, page := Select(table, p, bound), FetchPage(table, p, bound, limit);
            page.rows == Prefix(all, limit) &&
            (page.next.Some? <==> |all| > limit) &&
            (page.next.Some? ==> page.rows != [] && page.next.value == page.rows[limit - 1].key)
  {
    var all := Select(table, p, bound);
    if |all| > limit { assert all[..limit + 1][..limit] == all[..limit]; }
  }

  /** A row older than the bound, or as old with a smaller id. */
  ghost predicate PastBound<D>(r: Row<D>, bound: Option<Key>) {
    bound.Some? ==> r.key.ts < bound.value.ts || (r.key.ts == bound.value.ts && TextLess(r.key.id, bound.value.id))
  }

  /**
  The first `n` rows asked for: each is in the table, was asked for and lies past the bound, newest
  first; and a row left out is no newer than any of them, and left out only because they are `n`.
  */
  ghost predicate FirstRows<D(!new)>(rows: seq<Row<D>>, table: seq<Row<D>>, asked: Row<D> -> bool, bound: Option<Key>,
                                     n: int) {
    && |rows| <= n
    && (forall r :: r in rows ==> r in table && asked(r) && PastBound(r, bound))
    && (forall i, j :: 0 <= i < j < |rows| ==> rows[i] != rows[j] && rows[j].key.ts <= rows[i].key.ts)
    && (forall r :: r in table && asked(r) && PastBound(r, bound) && r !in rows ==>
          |rows| == n && forall i :: 0 <= i < n ==> r.key.ts <= rows[i].key.ts)
  }

  /** What is selected up to `n` rows is the first `n` rows asked for, however the question is put. */
  lemma {:induction false} SelectsFirstRows<D(!new)>(table: seq<Row<D>>, p: Row<D> -> bool, asked: Row<D> -> bool,
                                                     bound: Option<Key>, n: nat)
    requires Distinct(table) && forall r :: p(r) <==> asked(r)
    ensures FirstRows(Prefix(Select(table, p, bound), n), table, asked, bound, n)
  {
    var all := Select(table, p, bound);
    var rows := Prefix(all, n);
    SelectFacts(table, p, bound);
    forall r | r in rows ensures r in table && asked(r) && PastBound(r, bound) {
      assert r in all;
    }
    forall i, j | 0 <= i < j < |rows| ensures rows[i] != rows[j] && rows[j].key.ts <= rows[i].key.ts {
      assert Less(all[j].key, all[i].key);
      KeyOrder(all[i].key, all[i].key, all[i].key);
    }
    forall r | r in table && asked(r) && PastBound(r, bound) && r !in rows
      ensures |rows| == n && forall i :: 0 <= i < n ==> r.key.ts <= rows[i].key.ts
    {
      assert Wanted(r, p, bound);
      var k :| 0 <= k < |all| && all[k] == r;
      assert forall i :: 0 <= i < |rows| ==> rows[i] == all[i] && rows[i] in rows;
      assert k >= |rows|;
      assert forall i :: 0 <= i < n ==> Less(all[k].key, all[i].key);
    }
  }

  // ---------------------------------------------------------------- a walk over a changing table

  /** What one request of a walk sees: the table at that moment and the limit it asks for. */
  datatype Fetch<D> = Fetch(table: seq<Row<D>>, limit: int)

  ghost predicate GoodFetches<D>(fetches: seq<Fetch<D>>) {
    forall i :: 0 <= i < |fetches| ==> Distinct(fetches[i].table) && fetches[i].limit >= 1
  }

  /** The pages of a client that follows cursors until one is missing or it gives up. */
  ghost function Walk<D>(fetches: seq<Fetch<D>>, p: Row<D> -> bool, bound: Option<Key>): seq<Page<D>>
    requires GoodFetches(fetches)
    decreases |fetches|
  {
    if fetches == [] then []
    else
      var page := FetchPage(fetches[0].table, p, bound, fetches[0].limit);
      if page.next.None? then [page] else [page] + Walk(fetches[1..], p, page.next)
  }

  predicate Finished<D>(pages: seq<Page<D>>) {
    pages != [] && pages[|pages| - 1].next.None?
  }

  function AllRows<D>(pages: seq<Page<D>>): seq<Row<D>> {
    if pages == [] then [] else pages[0].rows + AllRows(pages[1..])
  }

  lemma AppendDescending<D(!new)>(a: seq<Row<D>>, b: seq<Row<D>>)
    requires Descending(a) && Descending(b)
    requires a != [] ==> forall r :: r in b ==> Less(r.key, a[|a| - 1].key)
    ensures Descending(a + b)
  {
    var s := a + b;
    forall i, j | 0 <= i < j < |s| ensures Less(s[j].key, s[i].key) {
      if i < |a| <= j {
        assert s[j] in b;
        KeyOrder(s[j].key, a[|a| - 1].key, s[i].key);
      }
    }
  }

  lemma BoundsNest(k: Key, inner: Key, bound: Option<Key>)
    requires Less(k, inner) && Below(inner, bound)
    ensures Below(k, bound)
  {
    if bound.Some? { KeyOrder(k, inner, bound.value); }
  }

  lemma PageDescends<D(!new)>(table: seq<Row<D>>, p: Row<D> -> bool, bound: Option<Key>, limit: int)
    requires Distinct(table) && limit >= 1
    ensures var page := FetchPage(table, p, bound, limit);
            && Descending(page.rows) && (forall r :: r in page.rows ==> Below(r.key, bound))
            && (page.next.Some? ==> page.rows != [] && page.next == Some(page.rows[|page.rows| - 1].key) &&
                                    Below(page.next.value, bound))
  {
    var page := FetchPage(table, p, bound, limit);
    SelectFacts(table, p, bound);
    PageFacts(table, p, bound, limit);
    forall r | r in page.rows ensures Below(r.key, bound) {
      assert r in Select(table, p, bound);
    }
    if page.next.Some? { assert page.rows[limit - 1] in page.rows; }
  }

  /** The keys of a whole walk strictly descend, within a page and from page to page. */
  lemma {:induction false} WalkDescends<D(!new)>(fetches: seq<Fetch<D>>, p: Row<D> -> bool, bound: Option<Key>)
    requires GoodFetches(fetches)
    ensures Descending(AllRows(Walk(fetches, p, bound)))
    ensures forall r :: r in AllRows(Walk(fetches, p, bound)) ==> Below(r.key, bound)
    decreases |fetches|
  {
    if fetches != [] {
      var f := fetches[0];
      var page := FetchPage(f.table, p, bound, f.limit);
      PageDescends(f.table, p, bound, f.limit);
      if page.next.None? {
        assert AllRows([page]) == page.rows;
      } else {
        var rest := Walk(fetches[1..], p, page.next);
        WalkDescends(fetches[1..], p, page.next);
        AppendDescending(page.rows, AllRows(rest));
        forall r | r in AllRows(rest) ensures Below(r.key, bound) {
          BoundsNest(r.key, page.next.value, bound);
        }
        assert ([page] + rest)[1..] == rest;
      }
    }
  }

  /** Every row a walk returns matched, and was in a table the walk saw. */
  lemma {:induction false} WalkIsSound<D(!new)>(fetches: seq<Fetch<D>>, p: Row<D> -> bool, bound: Option<Key>,
                                                r: Row<D>)
    requires GoodFetches(fetches) && r in AllRows(Walk(fetches, p, bound))
    ensures p(r) && exists i :: 0 <= i < |Walk(fetches, p, bound)| <= |fetches| && r in fetches[i].table
    decreases |fetches|
  {
    var f := fetches[0];
    var page := FetchPage(f.table, p, bound, f.limit);
    SelectFacts(f.table, p, bound);
    PageFacts(f.table, p, bound, f.limit);
    if r in page.rows {
      assert r in Select(f.table, p, bound) && r in fetches[0].table;
    } else {
      var rest := fetches[1..];
      assert ([page] + Walk(rest, p, page.next))[1..] == Walk(rest, p, page.next);
      WalkIsSound(rest, p, page.next, r);
      var i :| 0 <= i < |Walk(rest, p, page.next)| <= |rest| && r in rest[i].table;
      assert fetches[i + 1].table == rest[i].table;
    }
    WalkLength(fetches, p, bound);
  }

  lemma {:induction false} WalkLength<D(!new)>(fetches: seq<Fetch<D>>, p: Row<D> -> bool, bound: Option<Key>)
    requires GoodFetches(fetches)
    ensures |Walk(fetches, p, bound)| <= |fetches|
    decreases |fetches|
  {
    if fetches != [] {
      var page := FetchPage(fetches[0].table, p, bound, fetches[0].limit);
      if page.next.Some? { WalkLength(fetches[1..], p, page.next); }
    }
  }

  /** The table holds a matching row with this key. */
  ghost predicate Holds<D(!new)>(table: seq<Row<D>>, p: Row<D> -> bool, k: Key) {
    exists r :: r in table && r.key == k && p(r)
  }

  ghost predicate Returned<D>(rows: seq<Row<D>>, k: Key) {
    exists i :: 0 <= i < |rows| && rows[i].key == k
  }

  /** A wanted key is on the page, or below the cursor the page ends with. */
  lemma OnPageOrLater<D(!new)>(table: seq<Row<D>>, p: Row<D> -> bool, bound: Option<Key>, limit: int, k: Key)
    requires Distinct(table) && limit >= 1
    requires Holds(table, p, k) && Below(k, bound)
    ensures var page := FetchPage(table, p, bound, limit);
            Returned(page.rows, k) || (page.next.Some? && Below(k, page.next))
  {
    var all := Select(table, p, bound);
    SelectFacts(table, p, bound);
    PageFacts(table, p, bound, limit);
    var r :| r in table && r.key == k && p(r);
    assert r in all;
    var i :| 0 <= i < |all| && all[i] == r;
    var page := FetchPage(table, p, bound, limit);
    if |all| > limit && i >= limit {
      assert all[limit - 1] == page.rows[limit - 1];
    } else {
      assert page.rows[i] == r;
    }
  }

  /**
  A walk that reaches its end returns every key that had a matching row in each table it saw;
  by `WalkDescends` it returns that key once.
  */
  lemma {:induction false} WalkMissesNothing<D(!new)>(fetches: seq<Fetch<D>>, p: Row<D> -> bool, bound: Option<Key>,
                                                      k: Key)
    requires GoodFetches(fetches) && Finished(Walk(fetches, p, bound)) && Below(k, bound)
    requires forall i :: 0 <= i < |Walk(fetches, p, bound)| && i < |fetches| ==> Holds(fetches[i].table, p, k)
    ensures Returned(AllRows(Walk(fetches, p, bound)), k)
    decreases |fetches|
  {
    var f := fetches[0];
    var page := FetchPage(f.table, p, bound, f.limit);
    OnPageOrLater(f.table, p, bound, f.limit, k);
    var pages := Walk(fetches, p, bound);
    assert pages[0] == page;
    if Returned(page.rows, k) {
      var i :| 0 <= i < |page.rows| && page.rows[i].key == k;
      assert AllRows(pages)[i] == page.rows[i];
    } else {
      var rest := Walk(fetches[1..], p, page.next);
      assert pages[1..] == rest;
      assert pages[|pages| - 1] == if rest == [] then page else rest[|rest| - 1];
      forall i | 0 <= i < |rest| && i < |fetches[1..]| ensures Holds(fetches[1..][i].table, p, k) {
        assert fetches[i + 1].table == fetches[1..][i].table;
      }
      WalkMissesNothing(fetches[1..], p, page.next, k);
      var j :| 0 <= j < |AllRows(rest)| && AllRows(rest)[j].key == k;
      assert AllRows(pages)[|page.rows| + j] == AllRows(rest)[j];
    }
  }

  ghost predicate OnlyPlace<D>(rows: seq<Row<D>>, k: Key, i: int) {
    0 <= i < |rows| && forall j :: 0 <= j < |rows| ==> (rows[j].key == k <==> j == i)
  }

  /** The same, with the key returned at exactly one place. */
  lemma WalkReturnsOnce<D(!new)>(fetches: seq<Fetch<D>>, p: Row<D> -> bool, k: Key)
    requires GoodFetches(fetches) && Finished(Walk(fetches, p, None))
    requires forall i :: 0 <= i < |Walk(fetches, p, None)| && i < |fetches| ==> Holds(fetches[i].table, p, k)
    ensures exists i :: OnlyPlace(AllRows(Walk(fetches, p, None)), k, i)
  {
    var rows := AllRows(Walk(fetches, p, None));
    WalkMissesNothing(fetches, p, None, k);
    WalkDescends(fetches, p, None);
    var i :| 0 <= i < |rows| && rows[i].key == k;
    KeyOrder(k, k, k);
    assert OnlyPlace(rows, k, i);
  }

  // ---------------------------------------------------------------- a walk over an unchanged table

  /** Below the key of row `i` lie exactly the rows after it. */
  lemma SelectBelow<D(!new)>(table: seq<Row<D>>, p: Row<D> -> bool, bound: Option<Key>, i: nat)
    requires Distinct(table) && i < |Select(table, p, bound)|
    ensures Select(table, p, Some(Select(table, p, bound)[i].key)) == Select(table, p, bound)[i + 1..]
  {
    var all := Select(table, p, bound);
    var k := all[i].key;
    var below := Select(table, p, Some(k));
    SelectFacts(table, p, bound);
    SelectFacts(table, p, Some(k));
    assert Below(k, bound) by { assert all[i] in all; }
    forall r | r in below ensures r in all[i + 1..] {
      BoundsNest(r.key, k, bound);
      assert r in all;
      var j :| 0 <= j < |all| && all[j] == r;
      KeyOrder(r.key, k, r.key);
      KeyOrder(k, k, k);
      assert j > i;
      assert all[i + 1..][j - i - 1] == r;
    }
    forall r | r in all[i + 1..] ensures r in below {
      var j :| 0 <= j < |all| - i - 1 && all[i + 1..][j] == r;
      assert all[i + 1 + j] == r && r in all;
    }
    OrderedOneWay(below, all[i + 1..]);
  }

  ghost predicate SameTable<D>(fetches: seq<Fetch<D>>, table: seq<Row<D>>) {
    forall i :: 0 <= i < |fetches| ==> fetches[i].table == table
  }

  /** A page, and then the rest of the walk. */
  lemma PageThenRest<D(!new)>(page: Page<D>, rest: seq<Page<D>>, all: seq<Row<D>>, limit: nat)
    requires limit <= |all| && page.rows == all[..limit] && AllRows(rest) == all[limit..] && Finished(rest)
    ensures AllRows([page] + rest) == all && Finished([page] + rest)
  {
    assert ([page] + rest)[1..] == rest;
    assert all == all[..limit] + all[limit..];
  }

  /**
  Over an unchanged table a walk with enough requests ends, and its pages together are the
  selected rows in order.  No walk needs more requests than there are rows (or one, when there are none).
  */
  lemma {:induction false} UnchangedTableWalk<D(!new)>(fetches: seq<Fetch<D>>, table: seq<Row<D>>, p: Row<D> -> bool,
                                                       bound: Option<Key>)
    requires GoodFetches(fetches) && SameTable(fetches, table) && fetches != []
    requires |fetches| >= |Select(table, p, bound)|
    ensures Finished(Walk(fetches, p, bound))
    ensures AllRows(Walk(fetches, p, bound)) == Select(table, p, bound)
    decreases |fetches|
  {
    var all, limit := Select(table, p, bound), fetches[0].limit;
    assert fetches[0].table == table;
    var page := FetchPage(table, p, bound, limit);
    PageFacts(table, p, bound, limit);
    if page.next.None? {
      assert AllRows([page]) == page.rows;
    } else {
      SelectBelow(table, p, bound, limit - 1);
      UnchangedTableWalk(fetches[1..], table, p, page.next);
      var rest := Walk(fetches[1..], p, page.next);
      assert Walk(fetches, p, bound) == [page] + rest;
      PageThenRest(page, rest, all, limit);
    }
  }

  /** `pages` pages of up to `limit` rows are what `n` rows take; no rows take one page. */
  predicate Paged(n: int, pages: int, limit: int) {
    (pages - 1) * limit < n <= pages * limit || (n == 0 && pages == 1)
  }

  lemma OneMorePage(n: int, pages: int, limit: int)
    requires Paged(n, pages, limit) && n > 0
    ensures Paged(n + limit, pages + 1, limit)
  {
    assert (pages + 1) * limit == pages * limit + limit && (pages + 1 - 1) * limit == (pages - 1) * limit + limit;
  }

  /** With one limit throughout, the walk takes as many requests as there are full or partial pages. */
  lemma {:induction false} UnchangedTableLength<D(!new)>(fetches: seq<Fetch<D>>, table: seq<Row<D>>, p: Row<D> -> bool,
                                                         bound: Option<Key>, limit: int)
    requires GoodFetches(fetches) && SameTable(fetches, table) && fetches != [] && limit >= 1
    requires forall i :: 0 <= i < |fetches| ==> fetches[i].limit == limit
    requires |fetches| >= |Select(table, p, bound)|
    ensures Paged(|Select(table, p, bound)|, |Walk(fetches, p, bound)|, limit)
    decreases |fetches|
  {
    var all := Select(table, p, bound);
    assert fetches[0].table == table && fetches[0].limit == limit;
    var page := FetchPage(table, p, bound, limit);
    PageFacts(table, p, bound, limit);
    if page.next.Some? {
      SelectBelow(table, p, bound, limit - 1);
      UnchangedTableLength(fetches[1..], table, p, page.next, limit);
      OneMorePage(|all| - limit, |Walk(fetches[1..], p, page.next)|, limit);
    }
  }
}
