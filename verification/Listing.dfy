/**
Listings over text cursors: what the list operations of the transaction, agent and tool
stores have in common.  A client walks a listing by handing back the cursor it was given.
*/
module Listing {
  import opened Common
  import opened Pagination
  import opened Cursor

  /** How a store writes and reads cursors, and the page size it falls back on. */
  datatype Style = Style(write: Key -> string, read: string -> Result<Key, CursorError>, fallback: int)

  /** Every cursor the store writes is not empty and is read back as the key it was written for. */
  ghost predicate GoodStyle(s: Style) {
    s.fallback >= 1 && forall k: Key :: IsBytes(k.id) ==> s.write(k) != "" && s.read(s.write(k)) == Ok(k)
  }

  /** The cursors of a store, for one alphabet and one way of writing instants. */
  function CursorStyle(e: Encoding, c: TimeCodec, fallback: int): Style {
    Style((k: Key) => if IsBytes(c.format(k.ts)) && IsBytes(k.id) then EncodeCursor(e, c, k.ts, k.id) else "",
          (text: string) => match DecodeCursor(e, c, text)
                            case Err(error) => Err(error)
                            case Ok((ts, id)) => Ok(Key(ts, id)),
          fallback)
  }

  lemma CursorsAreGood(e: Encoding, c: TimeCodec, fallback: int)
    requires GoodCodec(c) && fallback >= 1
    ensures GoodStyle(CursorStyle(e, c, fallback))
  {
    var s := CursorStyle(e, c, fallback);
    forall k: Key | IsBytes(k.id) ensures s.write(k) != "" && s.read(s.write(k)) == Ok(k) {
      CursorRoundTrip(e, c, k.ts, k.id);
    }
  }

  ghost predicate ByteIds<D>(table: seq<Row<D>>) {
    forall i :: 0 <= i < |table| ==> IsBytes(table[i].key.id)
  }

  function PageLimit(s: Style, limit: int): int {
    if limit <= 0 then s.fallback else limit
  }

  /** The bound a cursor stands for; the empty cursor asks for the first page. */
  function Bound(s: Style, cursor: string): Result<Option<Key>, CursorError> {
    if cursor == "" then Ok(None)
    else
      match s.read(cursor)
      case Err(e) => Err(e)
      case Ok(k) => Ok(Some(k))
  }

  datatype Listed<D> = Listed(rows: seq<Row<D>>, next: string)

  ghost predicate ByteNext<D>(page: Page<D>) {
    page.next.Some? ==> IsBytes(page.next.value.id)
  }

  function Show<D>(s: Style, page: Page<D>): Listed<D> {
    Listed(page.rows, match page.next case None => "" case Some(k) => s.write(k))
  }

  /** The answer a list operation owes: the page below the cursor, or why the cursor cannot be read. */
  function ListPage<D>(s: Style, table: seq<Row<D>>, p: Row<D> -> bool, cursor: string, limit: int)
    : Result<Listed<D>, CursorError>
    requires s.fallback >= 1
  {
    match Bound(s, cursor)
    case Err(e) => Err(e)
    case Ok(bound) => Ok(Show(s, FetchPage(table, p, bound, PageLimit(s, limit))))
  }

  lemma NextIsInTable<D(!new)>(table: seq<Row<D>>, p: Row<D> -> bool, bound: Option<Key>, limit: int)
    requires limit >= 1 && Distinct(table) && ByteIds(table)
    ensures ByteNext(FetchPage(table, p, bound, limit))
  {
    var page := FetchPage(table, p, bound, limit);
    PageFacts(table, p, bound, limit);
    SelectFacts(table, p, bound);
    if page.next.Some? {
      var r := page.rows[limit - 1];
      assert r in Select(table, p, bound);
      assert r in table;
    }
  }

  /** The page of fetched rows, with the cursor written out. */
  method Finish<D(!new)>(table: seq<Row<D>>, p: Row<D> -> bool, bound: Option<Key>, fetched: seq<Row<D>>,
                          limit: int, e: Encoding, codec: TimeCodec, ghost fallback: int)
    returns (r: Listed<D>)
    requires GoodCodec(codec) && Distinct(table) && ByteIds(table) && limit >= 1
    requires fetched == Prefix(Select(table, p, bound), limit + 1)
    ensures ByteNext(FetchPage(table, p, bound, limit))
    ensures r == Show(CursorStyle(e, codec, fallback), FetchPage(table, p, bound, limit))
  {
    NextIsInTable(table, p, bound, limit);
    PageFacts(table, p, bound, limit);
    var rows, nextCursor := fetched, "";
    if |rows| > limit {
      var last := rows[limit - 1];
      nextCursor := EncodeCursor(e, codec, last.key.ts, last.key.id);
      rows := rows[..limit];
    }
    r := Listed(rows, nextCursor);
  }

  /** The answer holds the first `n` rows asked for below the cursor it came with, or says why that cannot be read. */
  ghost predicate Answers<D(!new)>(r: Result<Listed<D>, CursorError>, e: Encoding, codec: TimeCodec, cursor: string,
                                   table: seq<Row<D>>, asked: Row<D> -> bool, n: int) {
    if cursor == "" then r.Ok? && FirstRows(r.value.rows, table, asked, None, n)
    else
      match DecodeCursor(e, codec, cursor)
      case Err(error) => r == Err(error)
      case Ok((ts, id)) => r.Ok? && FirstRows(r.value.rows, table, asked, Some(Key(ts, id)), n)
  }

  lemma {:induction false} PageAnswers<D(!new)>(
    e: Encoding, codec: TimeCodec, fallback: int, table: seq<Row<D>>, p: Row<D> -> bool, asked: Row<D> -> bool,
    cursor: string, limit: int)
    requires Distinct(table) && fallback >= 1 && forall r :: p(r) <==> asked(r)
    ensures Answers(ListPage(CursorStyle(e, codec, fallback), table, p, cursor, limit), e, codec, cursor, table, asked,
                    if limit <= 0 then fallback else limit)
  {
    var n := if limit <= 0 then fallback else limit;
    var b := Bound(CursorStyle(e, codec, fallback), cursor);
    if b.Ok? {
      PageFacts(table, p, b.value, n);
      SelectsFirstRows(table, p, asked, b.value, n);
    }
  }

  // ---------------------------------------------------------------- walking a listing

  ghost predicate GoodTables<D>(fetches: seq<Fetch<D>>) {
    forall i :: 0 <= i < |fetches| ==> Distinct(fetches[i].table) && ByteIds(fetches[i].table)
  }

  /** The answers to a client that hands back each cursor until one is empty, or it gives up, or one is refused. */
  ghost function ListWalk<D(!new)>(s: Style, fetches: seq<Fetch<D>>, p: Row<D> -> bool, cursor: string): seq<Listed<D>>
    requires GoodStyle(s) && GoodTables(fetches)
    decreases |fetches|
  {
    if fetches == [] then []
    else
      match ListPage(s, fetches[0].table, p, cursor, fetches[0].limit)
      case Err(_) => []
      case Ok(page) => if page.next == "" then [page] else [page] + ListWalk(s, fetches[1..], p, page.next)
  }

  function AllListed<D>(pages: seq<Listed<D>>): seq<Row<D>> {
    if pages == [] then [] else pages[0].rows + AllListed(pages[1..])
  }

  predicate Complete<D>(pages: seq<Listed<D>>) {
    pages != [] && pages[|pages| - 1].next == ""
  }

  /** The same requests with every limit replaced by the one in effect. */
  ghost function InEffect<D>(s: Style, fetches: seq<Fetch<D>>): seq<Fetch<D>> {
    seq(|fetches|, i requires 0 <= i < |fetches| => Fetch(fetches[i].table, PageLimit(s, fetches[i].limit)))
  }

  ghost predicate Mirrors<D>(t: seq<Listed<D>>, w: seq<Page<D>>) {
    |t| == |w| && forall i :: 0 <= i < |w| ==> t[i].rows == w[i].rows && (t[i].next == "" <==> w[i].next.None?)
  }

  lemma MirrorsMore<D>(a: Listed<D>, t: seq<Listed<D>>, b: Page<D>, w: seq<Page<D>>)
    requires Mirrors(t, w) && a.rows == b.rows && (a.next == "" <==> b.next.None?)
    ensures Mirrors([a] + t, [b] + w)
  {
  }

  /** Walking by text cursors is walking by keys: no cursor a listing gives out is refused or misread. */
  lemma {:induction false} ListWalkMirrors<D(!new)>(s: Style, fetches: seq<Fetch<D>>, p: Row<D> -> bool,
                                                    cursor: string, bound: Option<Key>)
    requires GoodStyle(s) && GoodTables(fetches) && GoodFetches(InEffect(s, fetches))
    requires Bound(s, cursor) == Ok(bound)
    ensures Mirrors(ListWalk(s, fetches, p, cursor), Walk(InEffect(s, fetches), p, bound))
    decreases |fetches|
  {
    if fetches != [] {
      var limit := PageLimit(s, fetches[0].limit);
      var page := FetchPage(fetches[0].table, p, bound, limit);
      NextIsInTable(fetches[0].table, p, bound, limit);
      if page.next.Some? {
        var k := page.next.value;
        var rest := fetches[1..];
        assert InEffect(s, fetches)[1..] == InEffect(s, rest);
        ListWalkMirrors(s, rest, p, s.write(k), Some(k));
        MirrorsMore(Show(s, page), ListWalk(s, rest, p, s.write(k)), page, Walk(InEffect(s, rest), p, Some(k)));
      }
    }
  }

  lemma {:induction false} MirrorRows<D>(t: seq<Listed<D>>, w: seq<Page<D>>)
    requires Mirrors(t, w)
    ensures AllListed(t) == AllRows(w)
  {
    if t != [] {
      forall i | 0 <= i < |w| - 1
        ensures t[1..][i].rows == w[1..][i].rows && (t[1..][i].next == "" <==> w[1..][i].next.None?)
      {
        assert t[1..][i] == t[i + 1] && w[1..][i] == w[i + 1];
      }
      MirrorRows(t[1..], w[1..]);
    }
  }

  /** Over a whole walk of a listing whose table changes, keys strictly descend, so none is listed twice. */
  lemma ListWalkDescends<D(!new)>(s: Style, fetches: seq<Fetch<D>>, p: Row<D> -> bool)
    requires GoodStyle(s) && GoodTables(fetches)
    ensures Descending(AllListed(ListWalk(s, fetches, p, "")))
  {
    ListWalkMirrors(s, fetches, p, "", None);
    MirrorRows(ListWalk(s, fetches, p, ""), Walk(InEffect(s, fetches), p, None));
    WalkDescends(InEffect(s, fetches), p, None);
  }

  /** Every listed row matched, in one of the tables the walk saw. */
  lemma ListWalkIsSound<D(!new)>(s: Style, fetches: seq<Fetch<D>>, p: Row<D> -> bool, r: Row<D>)
    requires GoodStyle(s) && GoodTables(fetches) && r in AllListed(ListWalk(s, fetches, p, ""))
    ensures p(r) && exists i :: 0 <= i < |ListWalk(s, fetches, p, "")| <= |fetches| && r in fetches[i].table
  {
    var inEffect := InEffect(s, fetches);
    ListWalkMirrors(s, fetches, p, "", None);
    MirrorRows(ListWalk(s, fetches, p, ""), Walk(inEffect, p, None));
    WalkIsSound(inEffect, p, None, r);
    var i :| 0 <= i < |Walk(inEffect, p, None)| <= |inEffect| && r in inEffect[i].table;
    assert r in fetches[i].table;
  }

  /** A complete walk lists every key that had a matching row in each table it saw, at exactly one place. */
  lemma ListWalkReturnsOnce<D(!new)>(s: Style, fetches: seq<Fetch<D>>, p: Row<D> -> bool, k: Key)
    requires GoodStyle(s) && GoodTables(fetches) && Complete(ListWalk(s, fetches, p, ""))
    requires forall i :: 0 <= i < |ListWalk(s, fetches, p, "")| && i < |fetches| ==> Holds(fetches[i].table, p, k)
    ensures exists i :: OnlyPlace(AllListed(ListWalk(s, fetches, p, "")), k, i)
  {
    var inEffect := InEffect(s, fetches);
    var w := Walk(inEffect, p, None);
    ListWalkMirrors(s, fetches, p, "", None);
    MirrorRows(ListWalk(s, fetches, p, ""), w);
    forall i | 0 <= i < |w| && i < |inEffect| ensures Holds(inEffect[i].table, p, k) {
      assert Holds(fetches[i].table, p, k);
    }
    assert Finished(w);
    WalkReturnsOnce(inEffect, p, k);
  }

  /** Over an unchanged table a walk with enough requests is complete, and lists the matching rows in order. */
  lemma ListWalkOfUnchangedTable<D(!new)>(s: Style, fetches: seq<Fetch<D>>, table: seq<Row<D>>, p: Row<D> -> bool)
    requires GoodStyle(s) && GoodTables(fetches) && SameTable(fetches, table)
    requires fetches != [] && |fetches| >= |Select(table, p, None)|
    ensures Complete(ListWalk(s, fetches, p, ""))
    ensures AllListed(ListWalk(s, fetches, p, "")) == Select(table, p, None)
  {
    var inEffect := InEffect(s, fetches);
    ListWalkMirrors(s, fetches, p, "", None);
    MirrorRows(ListWalk(s, fetches, p, ""), Walk(inEffect, p, None));
    UnchangedTableWalk(inEffect, table, p, None);
  }
}
