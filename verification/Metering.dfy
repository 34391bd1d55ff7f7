/** The transaction store: compiling usage queries, listing transactions, and inserting batches. */
module Metering {
  import opened Common
  import opened Pagination
  import opened Cursor
  import opened Listing
  import opened Sql

  /** A recorded call without its instant, which is part of the key of its row. */
  datatype Call = Call(agentID: string, toolID: string, method_: string, path: string, statusCode: int,
                       latencyMs: int, requestSize: int, responseSize: int, success: bool,
                       cost: real, error: string, costSource: string)

  datatype Transaction = Transaction(timestamp: int, call: Call)

  datatype UsageQuery = UsageQuery(agentID: string, agentIDs: seq<string>, toolID: string, toolIDs: seq<string>,
                                   from: Option<int>, to: Option<int>, cursor: string, limit: int)

  // ---------------------------------------------------------------- what a query asks for

  /** A single id wins over a list; an empty list does not filter. */
  predicate Picks(id: string, ids: seq<string>, x: string) {
    if id != "" then x == id else ids == [] || x in ids
  }

  predicate Since(at: Option<int>, r: Row<Call>) {
    at.Some? ==> r.key.ts >= at.value
  }

  predicate Until(at: Option<int>, r: Row<Call>) {
    at.Some? ==> r.key.ts <= at.value
  }

  predicate Matches(q: UsageQuery, r: Row<Call>) {
    && Picks(q.agentID, q.agentIDs, r.data.agentID)
    && Picks(q.toolID, q.toolIDs, r.data.toolID)
    && Since(q.from, r)
    && Until(q.to, r)
  }

  function Filtering(q: UsageQuery): Row<Call> -> bool {
    r => Matches(q, r)
  }

  // ---------------------------------------------------------------- the compiler

  function Column(c: Call, name: string): (text: string)
    ensures name == "agent_id" ==> text == c.agentID
    ensures name == "tool_id" ==> text == c.toolID
  {
    if name == "agent_id" then c.agentID else if name == "tool_id" then c.toolID else ""
  }

  function CallSchema(): Schema<Call> {
    Schema(Column, (text, pattern) => false)
  }

  /** So far, the placeholders are `$1` to `$n` in the order written, one for each argument. */
  ghost predicate Numbered(conds: seq<Cond>, args: seq<Arg>) {
    AllSlots(conds) == UpTo(|args|) && InRange(conds, |args|)
  }

  /** A condition whose placeholders are the next ones in line keeps the numbering. */
  lemma AppendCondition(conds: seq<Cond>, args: seq<Arg>, c: Cond, more: seq<Arg>, test: Row<Call> -> bool)
    requires Numbered(conds, args)
    requires Slots(c) == seq(|more|, i => |args| + 1 + i)
    requires forall r :: CondHolds(c, args + more, CallSchema(), r) <==> test(r)
    ensures Numbered(conds + [c], args + more)
    ensures Narrows(conds, args, conds + [c], args + more, CallSchema(), test)
  {
    NextNumbers(conds, |args|, c, |more|);
    NextInRange(c, |args|, |more|);
    Narrow(conds, args, c, more, CallSchema(), test);
  }

  lemma NextNumbers(conds: seq<Cond>, n: nat, c: Cond, m: nat)
    requires AllSlots(conds) == UpTo(n) && Slots(c) == seq(m, i => n + 1 + i)
    ensures AllSlots(conds + [c]) == UpTo(n + m)
  {
    SlotsOfMore(conds, c);
    SplitUpTo(n, m, Slots(c));
  }

  lemma SplitUpTo(n: nat, m: nat, slots: seq<int>)
    requires |slots| == m && forall i :: 0 <= i < m ==> slots[i] == n + 1 + i
    ensures UpTo(n) + slots == UpTo(n + m)
  {
  }

  lemma NextInRange(c: Cond, n: nat, m: nat)
    requires Slots(c) == seq(m, i => n + 1 + i)
    ensures forall j :: 0 <= j < |Slots(c)| ==> 1 <= Slots(c)[j] <= n + m
  {
  }

  function TextArgs(ids: seq<string>): seq<Arg> {
    seq(|ids|, i requires 0 <= i < |ids| => Text(ids[i]))
  }

  lemma OneOfMeans(name: string, ids: seq<string>, args: seq<Arg>, slots: seq<int>, r: Row<Call>)
    requires slots == seq(|ids|, i => |args| + 1 + i)
    ensures CondHolds(OneOf(name, slots), args + TextArgs(ids), CallSchema(), r) <==> Column(r.data, name) in ids
  {
    var all := args + TextArgs(ids);
    forall i | 0 <= i < |ids| ensures ArgAt(all, slots[i]) == Some(Text(ids[i])) {
      assert all[|args| + i] == TextArgs(ids)[i];
    }
    if Column(r.data, name) in ids {
      var i :| 0 <= i < |ids| && ids[i] == Column(r.data, name);
      assert ArgAt(all, slots[i]) == Some(Text(Column(r.data, name)));
    }
  }

  /** The filter on one column: a single id, or a list of them, or none. */
  method AddFilter(name: string, id: string, ids: seq<string>, conds0: seq<Cond>, args0: seq<Arg>)
    returns (conds: seq<Cond>, args: seq<Arg>)
    requires Numbered(conds0, args0)
    ensures Numbered(conds, args)
    ensures Narrows(conds0, args0, conds, args, CallSchema(), (r: Row<Call>) => Picks(id, ids, Column(r.data, name)))
  {
    conds, args := conds0, args0;
    if id != "" {
      args := args + [Text(id)];
      conds := conds + [Equals(name, |args|)];
      AppendCondition(conds0, args0, Equals(name, |args|), [Text(id)],
                      (r: Row<Call>) => Picks(id, ids, Column(r.data, name)));
    } else if |ids| > 0 {
      var placeholders: seq<int> := [];
      var i := 0;
      while i < |ids|
        invariant 0 <= i <= |ids| == |TextArgs(ids)|
        invariant args == args0 + TextArgs(ids)[..i]
        invariant placeholders == seq(i, j => |args0| + 1 + j)
      {
        args := args + [Text(ids[i])];
        placeholders := placeholders + [|args|];
        i := i + 1;
      }
      conds := conds + [OneOf(name, placeholders)];
      assert TextArgs(ids)[..|ids|] == TextArgs(ids);
      forall r
        ensures CondHolds(OneOf(name, placeholders), args, CallSchema(), r) <==> Picks(id, ids, Column(r.data, name))
      {
        OneOfMeans(name, ids, args0, placeholders, r);
      }
      AppendCondition(conds0, args0, OneOf(name, placeholders), TextArgs(ids),
                      (r: Row<Call>) => Picks(id, ids, Column(r.data, name)));
    }
  }

  method AddSince(at: Option<int>, conds0: seq<Cond>, args0: seq<Arg>) returns (conds: seq<Cond>, args: seq<Arg>)
    requires Numbered(conds0, args0)
    ensures Numbered(conds, args)
    ensures Narrows(conds0, args0, conds, args, CallSchema(), (r: Row<Call>) => Since(at, r))
  {
    conds, args := conds0, args0;
    if at.Some? {
      args := args + [Instant(at.value)];
      conds := conds + [AtLeast(|args|)];
      AppendCondition(conds0, args0, AtLeast(|args|), [Instant(at.value)], (r: Row<Call>) => Since(at, r));
    }
  }

  method AddUntil(at: Option<int>, conds0: seq<Cond>, args0: seq<Arg>) returns (conds: seq<Cond>, args: seq<Arg>)
    requires Numbered(conds0, args0)
    ensures Numbered(conds, args)
    ensures Narrows(conds0, args0, conds, args, CallSchema(), (r: Row<Call>) => Until(at, r))
  {
    conds, args := conds0, args0;
    if at.Some? {
      args := args + [Instant(at.value)];
      conds := conds + [AtMost(|args|)];
      AppendCondition(conds0, args0, AtMost(|args|), [Instant(at.value)], (r: Row<Call>) => Until(at, r));
    }
  }

  /**
  The compiled filter lets through exactly the rows the query matches, and its placeholders are
  `$1` to `$n` in order, each with an argument of its own.
  */
  method BuildWhereClause(q: UsageQuery) returns (conds: seq<Cond>, args: seq<Arg>)
    ensures Means(conds, args, CallSchema(), Filtering(q))
    ensures forall r :: Meets(conds, args, CallSchema(), r) <==> AskedFor(q, r)
    ensures AllSlots(conds) == UpTo(|args|)
  {
    var conds1, args1 := AddFilter("agent_id", q.agentID, q.agentIDs, [], []);
    var conds2, args2 := AddFilter("tool_id", q.toolID, q.toolIDs, conds1, args1);
    var conds3, args3 := AddSince(q.from, conds2, args2);
    conds, args := AddUntil(q.to, conds3, args3);
    forall r ensures Meets(conds, args, CallSchema(), r) <==> Matches(q, r) {
      assert Meets(conds1, args1, CallSchema(), r) <==> Picks(q.agentID, q.agentIDs, Column(r.data, "agent_id"));
      assert Meets(conds2, args2, CallSchema(), r) <==>
        Meets(conds1, args1, CallSchema(), r) && Picks(q.toolID, q.toolIDs, Column(r.data, "tool_id"));
    }
  }

  // ---------------------------------------------------------------- what is listed

  /** A row that passes each part of a query: an id, or else a list of ids if it has any, and the instants. */
  ghost predicate AskedFor(q: UsageQuery, r: Row<Call>) {
    && (q.agentID != "" ==> r.data.agentID == q.agentID)
    && (q.agentID == "" && q.agentIDs != [] ==> r.data.agentID in q.agentIDs)
    && (q.toolID != "" ==> r.data.toolID == q.toolID)
    && (q.toolID == "" && q.toolIDs != [] ==> r.data.toolID in q.toolIDs)
    && (q.from.Some? ==> q.from.value <= r.key.ts)
    && (q.to.Some? ==> r.key.ts <= q.to.value)
  }

  // ---------------------------------------------------------------- listing

  function UsageStyle(codec: TimeCodec): Style {
    CursorStyle(RawUrl, codec, 50)
  }

  lemma BoundKeepsNumbers(conds: seq<Cond>, n: nat)
    requires AllSlots(conds) == UpTo(n)
    ensures AllSlots(conds + [KeyBelow(n + 1, n + 2)]) == UpTo(n + 2)
  {
    SlotsOfMore(conds, KeyBelow(n + 1, n + 2));
    SplitUpTo(n, 2, [n + 1, n + 2]);
  }

  /** The conditions of a listing: the query's, and the cursor's when there is one. */
  method CompileConditions(q: UsageQuery, bound: Option<Key>) returns (conds: seq<Cond>, args: seq<Arg>)
    ensures Means(conds, args, CallSchema(), Wanting(Filtering(q), bound))
    ensures AllSlots(conds) == UpTo(|args|)
  {
    var conds0, args0 := BuildWhereClause(q);
    conds, args := AddBound(bound, conds0, args0, CallSchema());
    if bound.Some? { BoundKeepsNumbers(conds0, |args0|); }
    MeansBoth(conds0, args0, conds, args, CallSchema(), Filtering(q), UnderBound(bound), Wanting(Filtering(q), bound));
  }

  /**
  The whole statement of a listing: whatever the table holds, it yields the first rows that match
  the query and lie below the bound; and its placeholders, the limit last, are `$1` to `$n` in order.
  */
  method CompileListing(q: UsageQuery, bound: Option<Key>, limit: int) returns (stmt: Statement)
    requires limit >= 1
    ensures Yields(stmt, CallSchema(), Filtering(q), bound, limit + 1)
    ensures forall table :: Distinct(table) ==>
              FirstRows(Run(table, stmt, CallSchema()), table, r => AskedFor(q, r), bound, limit + 1)
    ensures AllSlots(stmt.conds) + [stmt.limit] == UpTo(|stmt.args|)
  {
    var conds, args := CompileConditions(q, bound);
    stmt := Statement(conds, args + [Count(limit + 1)], |args| + 1);
    StatementYields(conds, args, CallSchema(), Filtering(q), bound, limit + 1);
    YieldsFirstRows(stmt, CallSchema(), Filtering(q), r => AskedFor(q, r), bound, limit + 1);
    UpToMore(|args|);
  }

  /** The listing is the page of matching rows below the cursor; an unreadable cursor is an error. */
  method ListTransactions(table: seq<Row<Call>>, q: UsageQuery, codec: TimeCodec)
    returns (r: Result<Listed<Call>, CursorError>)
    requires GoodCodec(codec) && Distinct(table) && ByteIds(table)
    ensures r == ListPage(UsageStyle(codec), table, Filtering(q), q.cursor, q.limit)
    ensures Answers(r, RawUrl, codec, q.cursor, table, row => AskedFor(q, row), if q.limit <= 0 then 50 else q.limit)
  {
    PageAnswers(RawUrl, codec, 50, table, Filtering(q), row => AskedFor(q, row), q.cursor, q.limit);
    var limit := q.limit;
    if limit <= 0 { limit := 50; }
    var bound: Option<Key> := None;
    if q.cursor != "" {
      match DecodeCursor(RawUrl, codec, q.cursor) {
        case Err(e) => return Err(e);
        case Ok((ts, id)) => bound := Some(Key(ts, id));
      }
    }
    var stmt := CompileListing(q, bound, limit);
    var page := Finish(table, Filtering(q), bound, Run(table, stmt, CallSchema()), limit, RawUrl, codec, 50);
    return Ok(page);
  }

  // ---------------------------------------------------------------- inserting

  const COLUMNS := 13

  datatype Value = Str(s: string) | At(t: int) | Int(n: int) | Flag(b: bool) | Money(m: real)

  function SourceOf(c: Call): string {
    if c.costSource == "" then "flat" else c.costSource
  }

  /** The values of one row, in the order of the columns of the statement. */
  function RowValues(tx: Transaction): (vs: seq<Value>)
    ensures |vs| == COLUMNS
  {
    var c := tx.call;
    [Str(c.agentID), Str(c.toolID), At(tx.timestamp), Str(c.method_), Str(c.path), Int(c.statusCode), Int(c.latencyMs),
     Int(c.requestSize), Int(c.responseSize), Flag(c.success), Money(c.cost), Str(c.error), Str(SourceOf(c))]
  }

  /** The insert statement: the placeholders of each row, and the argument list. */
  datatype Insertion = Insertion(rows: seq<seq<int>>, args: seq<Value>)

  /** The column values the database stores for row `i`: what its placeholders are bound to. */
  function StoredRow(ins: Insertion, i: int): Option<seq<Value>>
    requires 0 <= i < |ins.rows|
  {
    var slots := ins.rows[i];
    if forall k :: 0 <= k < |slots| ==> 1 <= slots[k] <= |ins.args| then
      Some(seq(|slots|, k requires 0 <= k < |slots| => ins.args[slots[k] - 1]))
    else None
  }

  /** A transaction read back from its thirteen column values. */
  function ReadRow(vs: seq<Value>): Option<Transaction> {
    if |vs| != COLUMNS then None
    else
      match (vs[0], vs[1], vs[2], vs[3], vs[4], vs[5], vs[6])
      case (Str(agent), Str(tool), At(ts), Str(m), Str(path), Int(status), Int(latency)) =>
        (match (vs[7], vs[8], vs[9], vs[10], vs[11], vs[12])
         case (Int(req), Int(resp), Flag(ok), Money(cost), Str(error), Str(source)) =>
           Some(Transaction(ts, Call(agent, tool, m, path, status, latency, req, resp, ok, cost, error, source)))
         case _ => None)
      case _ => None
  }

  /** Placeholder 13i + k + 1 is column k of row `i`, and the row reads back as `tx`, an empty source as "flat". */
  ghost predicate ReadsBack(ins: Insertion, i: int, tx: Transaction)
    requires 0 <= i < |ins.rows|
  {
    var c := tx.call;
    && |ins.rows[i]| == COLUMNS
    && (forall k :: 0 <= k < COLUMNS ==> ins.rows[i][k] == COLUMNS * i + k + 1)
    && StoredRow(ins, i) ==
         Some([Str(c.agentID), Str(c.toolID), At(tx.timestamp), Str(c.method_), Str(c.path), Int(c.statusCode),
               Int(c.latencyMs), Int(c.requestSize), Int(c.responseSize), Flag(c.success), Money(c.cost), Str(c.error),
               Str(if c.costSource == "" then "flat" else c.costSource)])
    && ReadRow(StoredRow(ins, i).value) == Some(tx.(call := tx.call.(costSource := SourceOf(tx.call))))
  }

  /**
  Placeholder 13i + k + 1 is column k of row i, and reading every row back gives the batch,
  except that an empty cost source comes back as "flat".  An empty batch sends no statement.
  */
  method BatchInsert(txns: seq<Transaction>) returns (ins: Option<Insertion>)
    ensures ins.None? <==> txns == []
    ensures ins.Some? ==> |ins.value.rows| == |txns| && |ins.value.args| == COLUMNS * |txns|
    ensures ins.Some? ==> forall i :: 0 <= i < |ins.value.rows| && i < |txns| ==> ReadsBack(ins.value, i, txns[i])
  {
    if |txns| == 0 { return None; }
    var args: seq<Value> := [];
    var rows: seq<seq<int>> := [];
    var i := 0;
    while i < |txns|
      invariant 0 <= i <= |txns| == |txns|
      invariant |rows| == i && |args| == COLUMNS * i
      invariant forall j :: 0 <= j < i ==> RowPlaced(rows[j], args, j, txns[j])
    {
      var base := i * COLUMNS;
      var c := txns[i].call;
      ghost var rows0, args0 := rows, args;
      rows := rows + [[base + 1, base + 2, base + 3, base + 4, base + 5, base + 6, base + 7,
                       base + 8, base + 9, base + 10, base + 11, base + 12, base + 13]];
      var costSource := c.costSource;
      if costSource == "" { costSource := "flat"; }
      args := args + [Str(c.agentID), Str(c.toolID), At(txns[i].timestamp), Str(c.method_), Str(c.path),
                      Int(c.statusCode), Int(c.latencyMs), Int(c.requestSize), Int(c.responseSize),
                      Flag(c.success), Money(c.cost), Str(c.error), Str(costSource)];
      assert args == args0 + RowValues(txns[i]);
      PlaceMore(rows0, args0, txns, i);
      i := i + 1;
    }
    ins := Some(Insertion(rows, args));
    forall j | 0 <= j < |txns| ensures ReadsBack(ins.value, j, txns[j]) {
      assert RowPlaced(rows[j], args, j, txns[j]);
      StoredAsPlaced(ins.value, j, txns[j]);
    }
  }

  /** Row `i` has its own run of placeholders, bound to its values. */
  ghost predicate RowPlaced(slots: seq<int>, args: seq<Value>, i: int, tx: Transaction) {
    && |slots| == COLUMNS
    && 0 <= COLUMNS * i <= |args| - COLUMNS
    && (forall k :: 0 <= k < COLUMNS ==> slots[k] == COLUMNS * i + k + 1)
    && args[COLUMNS * i..COLUMNS * i + COLUMNS] == RowValues(tx)
  }

  lemma PlaceMore(rows: seq<seq<int>>, args: seq<Value>, txns: seq<Transaction>, i: int)
    requires 0 <= i < |txns| && |rows| == i && |args| == COLUMNS * i
    requires forall j :: 0 <= j < i ==> RowPlaced(rows[j], args, j, txns[j])
    ensures var all := args + RowValues(txns[i]);
            all[COLUMNS * i..COLUMNS * i + COLUMNS] == RowValues(txns[i]) &&
            forall j :: 0 <= j < i ==> RowPlaced(rows[j], all, j, txns[j])
  {
    var all := args + RowValues(txns[i]);
    forall j | 0 <= j < i ensures RowPlaced(rows[j], all, j, txns[j]) {
      assert RowPlaced(rows[j], args, j, txns[j]);
      assert all[COLUMNS * j..COLUMNS * j + COLUMNS] == args[COLUMNS * j..COLUMNS * j + COLUMNS];
    }
  }

  lemma StoredAsPlaced(ins: Insertion, i: int, tx: Transaction)
    requires 0 <= i < |ins.rows| && RowPlaced(ins.rows[i], ins.args, i, tx)
    ensures ReadsBack(ins, i, tx)
  {
    var slots := ins.rows[i];
    forall k | 0 <= k < COLUMNS ensures 1 <= slots[k] <= |ins.args| && ins.args[slots[k] - 1] == RowValues(tx)[k] {
      assert ins.args[COLUMNS * i..COLUMNS * i + COLUMNS][k] == ins.args[COLUMNS * i + k];
    }
    assert StoredRow(ins, i).value == RowValues(tx);
  }
}
