/**
The part of SQL the stores build: a conjunction of conditions with numbered placeholders, an
argument list, an order by descending key, and a limit.  Placeholder `$k` is bound to the k-th argument.
*/
module Sql {
  import opened Common
  import opened Pagination

  datatype Arg = Text(text: string) | Texts(texts: seq<string>) | Instant(at: int) | Count(n: int)

  datatype Cond =
    | Equals(column: string, slot: int)              // column = $slot
    | OneOf(column: string, slots: seq<int>)         // column IN ($.., $.., ..)
    | AnyOf(column: string, slot: int)               // column = ANY($slot)
    | AtLeast(slot: int)                             // timestamp >= $slot
    | AtMost(slot: int)                              // timestamp <= $slot
    | KeyBelow(ts: int, id: int)                     // (timestamp, id) < ($ts, $id)
    | Like(left: string, right: string, slot: int)   // (left ILIKE $slot OR right ILIKE $slot)

  /** How a table shows its text columns, and how the database matches a pattern. */
  datatype Schema<!D> = Schema(column: (D, string) -> string, like: (string, string) -> bool)

  function ArgAt(args: seq<Arg>, slot: int): Option<Arg> {
    if 1 <= slot <= |args| then Some(args[slot - 1]) else None
  }

  predicate CondHolds<D>(c: Cond, args: seq<Arg>, s: Schema<D>, r: Row<D>) {
    match c
    case Equals(col, k) => ArgAt(args, k) == Some(Text(s.column(r.data, col)))
    case OneOf(col, ks) => exists i :: 0 <= i < |ks| && ArgAt(args, ks[i]) == Some(Text(s.column(r.data, col)))
    case AnyOf(col, k) =>
      (match ArgAt(args, k) case Some(Texts(ts)) => s.column(r.data, col) in ts case _ => false)
    case AtLeast(k) => (match ArgAt(args, k) case Some(Instant(t)) => r.key.ts >= t case _ => false)
    case AtMost(k) => (match ArgAt(args, k) case Some(Instant(t)) => r.key.ts <= t case _ => false)
    case KeyBelow(j, k) =>
      (match (ArgAt(args, j), ArgAt(args, k))
       case (Some(Instant(t)), Some(Text(id))) => Less(r.key, Key(t, id))
       case _ => false)
    case Like(a, b, k) =>
      (match ArgAt(args, k)
       case Some(Text(pattern)) => s.like(s.column(r.data, a), pattern) || s.like(s.column(r.data, b), pattern)
       case _ => false)
  }

  predicate Meets<D>(conds: seq<Cond>, args: seq<Arg>, s: Schema<D>, r: Row<D>) {
    forall i :: 0 <= i < |conds| ==> CondHolds(conds[i], args, s, r)
  }

  /** The placeholders of a condition, in the order they are written. */
  function Slots(c: Cond): seq<int> {
    match c
    case Equals(_, k) => [k]
    case OneOf(_, ks) => ks
    case AnyOf(_, k) => [k]
    case AtLeast(k) => [k]
    case AtMost(k) => [k]
    case KeyBelow(j, k) => [j, k]
    case Like(_, _, k) => [k, k]
  }

  function AllSlots(conds: seq<Cond>): seq<int> {
    if conds == [] then [] else AllSlots(conds[..|conds| - 1]) + Slots(conds[|conds| - 1])
  }

  function UpTo(n: nat): (s: seq<int>)
    ensures |s| == n && forall i :: 0 <= i < n ==> s[i] == i + 1
  {
    seq(n, i => i + 1)
  }

  lemma UpToMore(n: nat)
    ensures UpTo(n) + [n + 1] == UpTo(n + 1)
  {
  }

  predicate InRange(conds: seq<Cond>, n: int) {
    forall i, j :: 0 <= i < |conds| && 0 <= j < |Slots(conds[i])| ==> 1 <= Slots(conds[i])[j] <= n
  }

  lemma SlotsOfMore(conds: seq<Cond>, c: Cond)
    ensures AllSlots(conds + [c]) == AllSlots(conds) + Slots(c)
  {
    assert (conds + [c])[..|conds|] == conds;
  }

  lemma InRangeMore(conds: seq<Cond>, c: Cond, n: int, m: int)
    requires InRange(conds, n) && n <= m
    requires forall j :: 0 <= j < |Slots(c)| ==> 1 <= Slots(c)[j] <= m
    ensures InRange(conds + [c], m)
  {
  }

  lemma SameSlots(args: seq<Arg>, all: seq<Arg>, ks: seq<int>)
    requires args <= all && forall j :: 0 <= j < |ks| ==> 1 <= ks[j] <= |args|
    ensures forall j :: 0 <= j < |ks| ==> ArgAt(all, ks[j]) == ArgAt(args, ks[j])
  {
  }

  lemma OneOfSame(args: seq<Arg>, all: seq<Arg>, ks: seq<int>, x: Option<Arg>)
    requires forall j :: 0 <= j < |ks| ==> ArgAt(all, ks[j]) == ArgAt(args, ks[j])
    ensures (exists i :: 0 <= i < |ks| && ArgAt(args, ks[i]) == x) <==>
              (exists i :: 0 <= i < |ks| && ArgAt(all, ks[i]) == x)
  {
    if i :| 0 <= i < |ks| && ArgAt(args, ks[i]) == x { assert ArgAt(all, ks[i]) == x; }
    if i :| 0 <= i < |ks| && ArgAt(all, ks[i]) == x { assert ArgAt(args, ks[i]) == x; }
  }

  /** Arguments appended later do not disturb the conditions already written. */
  lemma MoreArgs<D>(c: Cond, args: seq<Arg>, more: seq<Arg>, s: Schema<D>, r: Row<D>)
    requires forall j :: 0 <= j < |Slots(c)| ==> 1 <= Slots(c)[j] <= |args|
    ensures CondHolds(c, args + more, s, r) == CondHolds(c, args, s, r)
  {
    forall j | 0 <= j < |Slots(c)| ensures ArgAt(args + more, Slots(c)[j]) == ArgAt(args, Slots(c)[j]) {
    }
    match c
    case Equals(_, k) => assert Slots(c)[0] == k;
    case OneOf(col, ks) =>
      assert args <= args + more && Slots(c) == ks;
      SameSlots(args, args + more, ks);
      OneOfSame(args, args + more, ks, Some(Text(s.column(r.data, col))));
    case AnyOf(_, k) => assert Slots(c)[0] == k;
    case AtLeast(k) => assert Slots(c)[0] == k;
    case AtMost(k) => assert Slots(c)[0] == k;
    case KeyBelow(j, k) => assert Slots(c)[0] == j && Slots(c)[1] == k;
    case Like(_, _, k) => assert Slots(c)[0] == k;
  }

  /** One more condition, with its arguments, adds just that condition. */
  lemma OneMoreCondition<D>(conds: seq<Cond>, args: seq<Arg>, c: Cond, more: seq<Arg>, s: Schema<D>, r: Row<D>)
    requires InRange(conds, |args|)
    ensures Meets(conds + [c], args + more, s, r) <==> Meets(conds, args, s, r) && CondHolds(c, args + more, s, r)
  {
    forall i | 0 <= i < |conds| ensures CondHolds(conds[i], args + more, s, r) == CondHolds(conds[i], args, s, r) {
      MoreArgs(conds[i], args, more, s, r);
    }
    var all := conds + [c];
    assert forall i :: 0 <= i < |conds| ==> all[i] == conds[i];
    assert all[|conds|] == c;
    if Meets(all, args + more, s, r) {
      forall i | 0 <= i < |conds| ensures CondHolds(conds[i], args, s, r) {
        assert CondHolds(all[i], args + more, s, r);
      }
    }
  }

  /** The longer query keeps the arguments in place and adds one test to every row. */
  ghost predicate Narrows<D(!new)>(conds: seq<Cond>, args: seq<Arg>, more: seq<Cond>, moreArgs: seq<Arg>, s: Schema<D>,
                                   test: Row<D> -> bool) {
    && InRange(more, |moreArgs|)
    && forall r :: Meets(more, moreArgs, s, r) <==> Meets(conds, args, s, r) && test(r)
  }

  lemma Narrow<D(!new)>(conds: seq<Cond>, args: seq<Arg>, c: Cond, more: seq<Arg>, s: Schema<D>, test: Row<D> -> bool)
    requires InRange(conds, |args|)
    requires forall j :: 0 <= j < |Slots(c)| ==> 1 <= Slots(c)[j] <= |args| + |more|
    requires forall r :: CondHolds(c, args + more, s, r) <==> test(r)
    ensures Narrows(conds, args, conds + [c], args + more, s, test)
  {
    InRangeMore(conds, c, |args|, |args + more|);
    forall r ensures Meets(conds + [c], args + more, s, r) <==> Meets(conds, args, s, r) && test(r) {
      OneMoreCondition(conds, args, c, more, s, r);
      assert CondHolds(c, args + more, s, r) <==> test(r);
    }
  }

  /** The condition a cursor adds: its two arguments come next. */
  lemma NarrowToBound<D(!new)>(conds: seq<Cond>, args: seq<Arg>, k: Key, s: Schema<D>)
    requires InRange(conds, |args|)
    ensures Narrows(conds, args, conds + [KeyBelow(|args| + 1, |args| + 2)], args + [Instant(k.ts), Text(k.id)], s,
                    UnderBound(Some(k)))
  {
    var c, more := KeyBelow(|args| + 1, |args| + 2), [Instant(k.ts), Text(k.id)];
    forall r: Row<D> ensures CondHolds(c, args + more, s, r) <==> UnderBound(Some(k))(r) {
      assert (args + more)[|args|] == more[0] && (args + more)[|args| + 1] == more[1];
    }
    Narrow(conds, args, c, more, s, UnderBound(Some(k)));
  }

  /** The conditions hold of exactly the rows that pass the test. */
  ghost predicate Means<D(!new)>(conds: seq<Cond>, args: seq<Arg>, s: Schema<D>, test: Row<D> -> bool) {
    InRange(conds, |args|) && forall r :: Meets(conds, args, s, r) <==> test(r)
  }

  lemma NarrowsFromNothing<D(!new)>(conds: seq<Cond>, args: seq<Arg>, s: Schema<D>, test: Row<D> -> bool)
    requires Narrows([], [], conds, args, s, test)
    ensures Means(conds, args, s, test)
  {
    forall r: Row<D> ensures Meets(conds, args, s, r) <==> test(r) {
      assert Meets([], [], s, r);
    }
  }

  lemma MeansBoth<D(!new)>(conds: seq<Cond>, args: seq<Arg>, more: seq<Cond>, moreArgs: seq<Arg>, s: Schema<D>,
                           a: Row<D> -> bool, b: Row<D> -> bool, both: Row<D> -> bool)
    requires Means(conds, args, s, a) && Narrows(conds, args, more, moreArgs, s, b)
    requires forall r :: both(r) <==> a(r) && b(r)
    ensures Means(more, moreArgs, s, both)
  {
    forall r: Row<D> ensures Meets(more, moreArgs, s, r) <==> both(r) {
      assert Meets(conds, args, s, r) <==> a(r);
    }
  }

  function UnderBound<D>(bound: Option<Key>): Row<D> -> bool {
    (r: Row<D>) => Below(r.key, bound)
  }

  function Wanting<D>(p: Row<D> -> bool, bound: Option<Key>): Row<D> -> bool {
    (r: Row<D>) => Wanted(r, p, bound)
  }

  /** The cursor's condition, if there is a cursor. */
  method AddBound<D(!new)>(bound: Option<Key>, conds0: seq<Cond>, args0: seq<Arg>, ghost s: Schema<D>)
    returns (conds: seq<Cond>, args: seq<Arg>)
    requires InRange(conds0, |args0|)
    ensures Narrows(conds0, args0, conds, args, s, UnderBound(bound))
    ensures bound.None? ==> conds == conds0 && args == args0
    ensures bound.Some? ==> conds == conds0 + [KeyBelow(|args0| + 1, |args0| + 2)] && |args| == |args0| + 2
  {
    conds, args := conds0, args0;
    if bound.Some? {
      var n := |args|;
      conds := conds + [KeyBelow(n + 1, n + 2)];
      args := args + [Instant(bound.value.ts), Text(bound.value.id)];
      NarrowToBound(conds0, args0, bound.value, s);
    }
  }

  datatype Statement = Statement(conds: seq<Cond>, args: seq<Arg>, limit: int)

  /** What the database answers: the matching rows by descending key, as many as the limit argument says. */
  function Run<D>(table: seq<Row<D>>, q: Statement, s: Schema<D>): seq<Row<D>> {
    match ArgAt(q.args, q.limit)
    case Some(Count(n)) =>
      if n >= 0 then Prefix(Select(table, r => Meets(q.conds, q.args, s, r), None), n) else []
    case _ => []
  }

  /** Two queries that want the same rows of the table select the same rows. */
  lemma {:induction false} SameWants<D>(table: seq<Row<D>>, p: Row<D> -> bool, a: Option<Key>, q: Row<D> -> bool,
                                        b: Option<Key>)
    requires forall i :: 0 <= i < |table| ==> Wanted(table[i], p, a) == Wanted(table[i], q, b)
    ensures Select(table, p, a) == Select(table, q, b)
  {
    if table != [] {
      assert Wanted(table[0], p, a) == Wanted(table[0], q, b);
      SameWants(table[1..], p, a, q, b);
    }
  }

  /** `Run` does not depend on how the test of a row is written down. */
  lemma RunOf<D>(table: seq<Row<D>>, stmt: Statement, s: Schema<D>, p: Row<D> -> bool, bound: Option<Key>, n: int)
    requires ArgAt(stmt.args, stmt.limit) == Some(Count(n)) && n >= 0
    requires forall i :: 0 <= i < |table| ==> Wanted(table[i], p, bound) == Meets(stmt.conds, stmt.args, s, table[i])
    ensures Run(table, stmt, s) == Prefix(Select(table, p, bound), n)
  {
    SameWants(table, r => Meets(stmt.conds, stmt.args, s, r), None, p, bound);
  }

  /** Conditions that mean the filter and the bound select what they select, with the limit as last argument. */
  lemma RunSelects<D(!new)>(table: seq<Row<D>>, p: Row<D> -> bool, bound: Option<Key>, conds: seq<Cond>,
                            args: seq<Arg>, n: int, s: Schema<D>)
    requires n >= 0 && Means(conds, args, s, Wanting(p, bound))
    ensures Run(table, Statement(conds, args + [Count(n)], |args| + 1), s) == Prefix(Select(table, p, bound), n)
  {
    var all := args + [Count(n)];
    forall i | 0 <= i < |table| ensures Wanted(table[i], p, bound) == Meets(conds, all, s, table[i]) {
      var r := table[i];
      assert Meets(conds, args, s, r) <==> Wanting(p, bound)(r);
      forall j | 0 <= j < |conds| ensures CondHolds(conds[j], all, s, r) == CondHolds(conds[j], args, s, r) {
        MoreArgs(conds[j], args, [Count(n)], s, r);
      }
    }
    RunOf(table, Statement(conds, all, |args| + 1), s, p, bound, n);
  }

  /** Whatever the table holds, the statement yields the first `n` rows wanted. */
  ghost predicate Yields<D(!new)>(stmt: Statement, s: Schema<D>, p: Row<D> -> bool, bound: Option<Key>, n: int)
    requires n >= 0
  {
    forall table: seq<Row<D>> :: Run(table, stmt, s) == Prefix(Select(table, p, bound), n)
  }

  /** Which is the first rows asked for, however the question is put. */
  lemma YieldsFirstRows<D(!new)>(stmt: Statement, s: Schema<D>, p: Row<D> -> bool, asked: Row<D> -> bool,
                                 bound: Option<Key>, n: int)
    requires n >= 0 && Yields(stmt, s, p, bound, n) && forall r :: p(r) <==> asked(r)
    ensures forall table :: Distinct(table) ==> FirstRows(Run(table, stmt, s), table, asked, bound, n)
  {
    forall table: seq<Row<D>> | Distinct(table) ensures FirstRows(Run(table, stmt, s), table, asked, bound, n) {
      SelectsFirstRows(table, p, asked, bound, n);
    }
  }

  lemma StatementYields<D(!new)>(conds: seq<Cond>, args: seq<Arg>, s: Schema<D>, p: Row<D> -> bool, bound: Option<Key>,
                                 n: int)
    requires n >= 0 && Means(conds, args, s, Wanting(p, bound))
    ensures Yields(Statement(conds, args + [Count(n)], |args| + 1), s, p, bound, n)
  {
    forall table: seq<Row<D>>
      ensures Run(table, Statement(conds, args + [Count(n)], |args| + 1), s) == Prefix(Select(table, p, bound), n)
    {
      RunSelects(table, p, bound, conds, args, n, s);
    }
  }

  /** A statement for the rows of `p` under a bound, its two tests written in either order. */
  lemma BothYield<D(!new)>(conds0: seq<Cond>, args0: seq<Arg>, conds: seq<Cond>, args: seq<Arg>, s: Schema<D>,
                           a: Row<D> -> bool, b: Row<D> -> bool, p: Row<D> -> bool, bound: Option<Key>, n: int)
    requires n >= 0 && Means(conds0, args0, s, a) && Narrows(conds0, args0, conds, args, s, b)
    requires (a == p && b == UnderBound(bound)) || (a == UnderBound(bound) && b == p)
    ensures Yields(Statement(conds, args + [Count(n)], |args| + 1), s, p, bound, n)
  {
    MeansBoth(conds0, args0, conds, args, s, a, b, Wanting(p, bound));
    StatementYields(conds, args, s, p, bound, n);
  }

  /** A bound and then a filter, written from nothing, mean the rows of the filter under the bound. */
  lemma BoundThenFilter<D(!new)>(conds0: seq<Cond>, args0: seq<Arg>, conds: seq<Cond>, args: seq<Arg>, s: Schema<D>,
                                 p: Row<D> -> bool, bound: Option<Key>)
    requires Narrows([], [], conds0, args0, s, UnderBound(bound)) && Narrows(conds0, args0, conds, args, s, p)
    ensures Means(conds, args, s, Wanting(p, bound))
  {
    NarrowsFromNothing(conds0, args0, s, UnderBound(bound));
    MeansBoth(conds0, args0, conds, args, s, UnderBound(bound), p, Wanting(p, bound));
  }
}
