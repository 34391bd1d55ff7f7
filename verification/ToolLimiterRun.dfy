/**
Tool limits under concurrency.  The limiter's lock is taken for one operation at a time, so the
operations of many requests interleave: between the Allow calls of one request's scopes, and
between an Allow and its Status.  What every interleaving keeps is stated here.
*/
module ToolLimiterRun {
  import opened Common
  import TB = TokenBucket
  import opened LimiterRun
  import opened LimiterKeys
  import opened ToolLimiter

  /** What a request is limited by: its rates, and whom it is for. */
  datatype Caller = Caller(rates: Rates, tool: string, team: string, agent: string)

  function ChecksOf(c: Caller): seq<Check> {
    Checks(c.rates, c.tool, c.team, c.agent)
  }

  /** One call on the limiter: the key, the rate, and whether it is Allow rather than Status. */
  datatype Call = Call(key: string, rate: int, debit: bool)

  /** The calls a request makes, in order: Allow, then Status, for every check. */
  function Script(cs: seq<Check>): seq<Call> {
    if cs == [] then []
    else Script(cs[..|cs| - 1]) + [Call(cs[|cs| - 1].key, cs[|cs| - 1].rate, true),
                                   Call(cs[|cs| - 1].key, cs[|cs| - 1].rate, false)]
  }

  /** The calls made for request `r` in a run, in order. */
  function CallsOf(ks: seq<KeyedOp>, r: nat): seq<Call> {
    if ks == [] then []
    else (if ks[0].req == r then [Call(ks[0].key, ks[0].op.rate, ks[0].op.debit)] else []) + CallsOf(ks[1..], r)
  }

  /** The run serves request `r` from start to end, whatever else happens in between. */
  predicate Serves(ks: seq<KeyedOp>, r: nat, cs: seq<Check>) {
    CallsOf(ks, r) == Script(cs)
  }

  /** No Allow call of request `r` was refused. */
  predicate Admitted(ks: seq<KeyedOp>, ans: seq<bool>, r: nat)
    requires |ks| == |ans|
  {
    forall i :: 0 <= i < |ks| && ks[i].req == r && ks[i].op.debit ==> ans[i]
  }

  predicate Charges(k: KeyedOp, r: nat, key: string) {
    k.req == r && k.key == key && k.op.debit
  }

  lemma {:induction false} ScriptCharges(cs: seq<Check>, j: nat)
    requires j < |cs|
    ensures Call(cs[j].key, cs[j].rate, true) in Script(cs)
  {
    if j == |cs| - 1 {
      var front := Script(cs[..|cs| - 1]);
      assert Script(cs)[|front|] == Call(cs[j].key, cs[j].rate, true);
    } else {
      ScriptCharges(cs[..|cs| - 1], j);
    }
  }

  lemma {:induction false} CallMade(ks: seq<KeyedOp>, r: nat, c: Call)
    requires c in CallsOf(ks, r)
    ensures exists i ::
              0 <= i < |ks| && ks[i].req == r && ks[i].key == c.key && ks[i].op.rate == c.rate &&
              ks[i].op.debit == c.debit
  {
    if ks[0].req == r && Call(ks[0].key, ks[0].op.rate, ks[0].op.debit) == c {
      assert ks[0].req == r;
    } else {
      CallMade(ks[1..], r, c);
      var i :| 0 <= i < |ks[1..]| && ks[1..][i].req == r && ks[1..][i].key == c.key && ks[1..][i].op.rate == c.rate &&
               ks[1..][i].op.debit == c.debit;
      assert ks[i + 1] == ks[1..][i];
    }
  }

  /** A request served and admitted took a token from the bucket of every check, at that check's rate. */
  lemma {:induction false} AdmittedDebitsEveryCheck(ks: seq<KeyedOp>, ans: seq<bool>, r: nat, cs: seq<Check>, j: nat)
    requires |ks| == |ans| && Serves(ks, r, cs) && Admitted(ks, ans, r) && j < |cs|
    ensures exists i :: 0 <= i < |ks| && Charges(ks[i], r, cs[j].key) && ks[i].op.rate == cs[j].rate && ans[i]
  {
    ScriptCharges(cs, j);
    CallMade(ks, r, Call(cs[j].key, cs[j].rate, true));
  }

  // ---------------------------------------------------------------- the envelopes of all scopes

  /** Whether a scope is among those the request is limited by. */
  predicate Applies(c: Caller, scope: Scope) {
    exists j :: 0 <= j < |Scopes(c.rates, c.tool, c.team, c.agent)| &&
                Scopes(c.rates, c.tool, c.team, c.agent)[j].scope == scope
  }

  /** Request `r` was served and admitted, the scope applies to it, and it charged the scope only inside [from, to]. */
  ghost predicate AdmittedOn(w: int, ks: seq<KeyedOp>, callers: map<nat, Caller>, scope: Scope, from: int, to: int,
                             r: nat) {
    && r in callers && Applies(callers[r], scope)
    && Serves(ks, r, ChecksOf(callers[r])) && Admitted(ks, KeyedAnswers(map[], w, ks), r)
    && forall i :: 0 <= i < |ks| && Charges(ks[i], r, Key(scope)) ==> from <= ks[i].op.time <= to
  }

  lemma AdmittedIsDebited(w: int, ks: seq<KeyedOp>, callers: map<nat, Caller>, scope: Scope, from: int, to: int, r: nat)
    requires AdmittedOn(w, ks, callers, scope, from, to, r)
    ensures TookToken(ks, KeyedAnswers(map[], w, ks), r, Key(scope), from, to)
  {
    var c, ans := callers[r], KeyedAnswers(map[], w, ks);
    var j :| 0 <= j < |Scopes(c.rates, c.tool, c.team, c.agent)| &&
             Scopes(c.rates, c.tool, c.team, c.agent)[j].scope == scope;
    AdmittedDebitsEveryCheck(ks, ans, r, ChecksOf(c), j);
    var i :| 0 <= i < |ks| && Charges(ks[i], r, Key(scope)) && ans[i];
    assert Debited(ks, ans, i, r, Key(scope), from, to);
  }

  /** In any closed interval, the admitted requests a scope applies to number at most most + most * d / w. */
  ghost predicate EnvelopeHolds(w: int, ks: seq<KeyedOp>, callers: map<nat, Caller>, scope: Scope, most: int,
                                from: int, to: int) {
    forall admitted: set<nat> :: (forall r :: r in admitted ==> AdmittedOn(w, ks, callers, scope, from, to, r)) ==>
      w * |admitted| <= most * w + most * (to - from)
  }

  /**
  Over every run, however the limiter operations of the requests interleave with each other and with
  any others, the envelopes of the tool, of the team on it and of the agent on it hold at once, as
  long as the rates used for each of those scopes stay within its bound.
  */
  lemma AllEnvelopesHold(w: int, ks: seq<KeyedOp>, callers: map<nat, Caller>, c: Caller, most: Rates, from: int,
                         to: int)
    requires w > 0 && from <= to && ClockRuns(ks) && most.tool >= 0 && most.team >= 0 && most.agent >= 0
    requires KeyRateWithin(ks, Key(ToolScope(c.tool)), most.tool)
    requires KeyRateWithin(ks, Key(TeamScope(c.tool, c.team)), most.team)
    requires KeyRateWithin(ks, Key(ToolAgentScope(c.tool, c.agent)), most.agent)
    ensures EnvelopeHolds(w, ks, callers, ToolScope(c.tool), most.tool, from, to)
    ensures EnvelopeHolds(w, ks, callers, TeamScope(c.tool, c.team), most.team, from, to)
    ensures EnvelopeHolds(w, ks, callers, ToolAgentScope(c.tool, c.agent), most.agent, from, to)
  {
    OneEnvelopeHolds(w, ks, callers, ToolScope(c.tool), most.tool, from, to);
    OneEnvelopeHolds(w, ks, callers, TeamScope(c.tool, c.team), most.team, from, to);
    OneEnvelopeHolds(w, ks, callers, ToolAgentScope(c.tool, c.agent), most.agent, from, to);
  }

  lemma OneEnvelopeHolds(w: int, ks: seq<KeyedOp>, callers: map<nat, Caller>, scope: Scope, most: int, from: int,
                         to: int)
    requires w > 0 && most >= 0 && from <= to && ClockRuns(ks) && KeyRateWithin(ks, Key(scope), most)
    ensures EnvelopeHolds(w, ks, callers, scope, most, from, to)
  {
    forall admitted: set<nat> | forall r :: r in admitted ==> AdmittedOn(w, ks, callers, scope, from, to, r)
      ensures w * |admitted| <= most * w + most * (to - from)
    {
      forall r | r in admitted
        ensures TookToken(ks, KeyedAnswers(map[], w, ks), r, Key(scope), from, to)
      {
        AdmittedIsDebited(w, ks, callers, scope, from, to, r);
      }
      ScopeEnvelope(w, ks, Key(scope), most, from, to, admitted);
    }
  }

  // ---------------------------------------------------------------- a request nothing interrupts

  /** The two operations of check `k`, at readings 3k and 3k+1 of the clock. */
  function PairOf(r: nat, cs: seq<Check>, clock: nat -> int, k: nat): seq<KeyedOp>
    requires k < |cs|
  {
    [KeyedOp(r, cs[k].key, TB.Op(cs[k].rate, clock(3 * k), true)),
     KeyedOp(r, cs[k].key, TB.Op(cs[k].rate, clock(3 * k + 1), false))]
  }

  /** The operations of request `r` when nothing comes in between. */
  function Uninterrupted(r: nat, cs: seq<Check>, clock: nat -> int, n: nat): seq<KeyedOp>
    requires n <= |cs|
  {
    if n == 0 then [] else Uninterrupted(r, cs, clock, n - 1) + PairOf(r, cs, clock, n - 1)
  }

  lemma {:induction false} CallsOfAppend(a: seq<KeyedOp>, b: seq<KeyedOp>, r: nat)
    ensures CallsOf(a + b, r) == CallsOf(a, r) + CallsOf(b, r)
  {
    if a == [] {
      assert a + b == b;
    } else {
      assert (a + b)[1..] == a[1..] + b;
      CallsOfAppend(a[1..], b, r);
      var first := if a[0].req == r then [Call(a[0].key, a[0].op.rate, a[0].op.debit)] else [];
      assert first + (CallsOf(a[1..], r) + CallsOf(b, r)) == (first + CallsOf(a[1..], r)) + CallsOf(b, r);
    }
  }

  lemma {:induction false} RunAppend(m: Table, w: int, a: seq<KeyedOp>, b: seq<KeyedOp>)
    ensures KeyedAfter(m, w, a + b) == KeyedAfter(KeyedAfter(m, w, a), w, b)
    ensures KeyedAnswers(m, w, a + b) == KeyedAnswers(m, w, a) + KeyedAnswers(KeyedAfter(m, w, a), w, b)
    decreases |a|
  {
    if a == [] {
      assert a + b == b;
    } else {
      assert (a + b)[1..] == a[1..] + b;
      RunAppend(KeyedStep(m, w, a[0]).0, w, a[1..], b);
    }
  }

  /** Two operations in a row on one key. */
  lemma RunPair(m: Table, w: int, x: KeyedOp, y: KeyedOp)
    requires x.key == y.key
    ensures var (b, a) := TB.Step(Lookup(m, x.key), w, x.op);
            var (b1, a1) := TB.Step(Some(b), w, y.op);
            KeyedAfter(m, w, [x, y]) == m[x.key := b1] && KeyedAnswers(m, w, [x, y]) == [a, a1]
  {
    var m1 := KeyedStep(m, w, x).0;
    assert [x, y][1..] == [y] && [y][1..] == [];
    assert KeyedAfter(m1, w, [y]) == KeyedStep(m1, w, y).0;
    assert KeyedAnswers(m1, w, [y]) == [KeyedStep(m1, w, y).1];
  }

  lemma UninterruptedPair(r: nat, x: KeyedOp, y: KeyedOp)
    requires x.req == r && y.req == r
    ensures CallsOf([x, y], r) == [Call(x.key, x.op.rate, x.op.debit), Call(y.key, y.op.rate, y.op.debit)]
  {
    assert [x, y][1..] == [y] && [y][1..] == [];
    assert CallsOf([y], r) == [Call(y.key, y.op.rate, y.op.debit)];
  }

  lemma {:induction false} UninterruptedServes(r: nat, cs: seq<Check>, clock: nat -> int, n: nat)
    requires n <= |cs|
    ensures CallsOf(Uninterrupted(r, cs, clock, n), r) == Script(cs[..n])
  {
    if n > 0 {
      var k, pair := n - 1, PairOf(r, cs, clock, n - 1);
      UninterruptedServes(r, cs, clock, k);
      CallsOfAppend(Uninterrupted(r, cs, clock, k), pair, r);
      UninterruptedPair(r, pair[0], pair[1]);
      assert cs[..n][..k] == cs[..k];
    }
  }

  /** Whether all Allow calls so far were admitted, with the buckets they leave. */
  function RunOf(m: Table, w: int, ks: seq<KeyedOp>, r: nat): (Table, bool) {
    (KeyedAfter(m, w, ks), Admitted(ks, KeyedAnswers(m, w, ks), r))
  }

  /** The pair does to the bucket of its key what the check does, and admits when the check does. */
  lemma PairIsCheck(m: Table, w: int, r: nat, cs: seq<Check>, clock: nat -> int, k: nat)
    requires k < |cs|
    ensures var o := AllowThenStatus(w, cs, clock)(k, Lookup(m, cs[k].key));
            RunOf(m, w, PairOf(r, cs, clock, k), r) == (m[cs[k].key := o.bucket], o.admits)
  {
    var ks := PairOf(r, cs, clock, k);
    RunPair(m, w, ks[0], ks[1]);
    var o := AllowThenStatus(w, cs, clock)(k, Lookup(m, cs[k].key));
    assert o == ScopeOutcome(w, cs[k].rate, Lookup(m, cs[k].key), clock(3 * k), clock(3 * k + 1), clock(3 * k + 2));
  }

  lemma RunOfAppend(m: Table, w: int, a: seq<KeyedOp>, b: seq<KeyedOp>, r: nat)
    ensures var (m1, ok) := RunOf(m, w, a, r);
            RunOf(m, w, a + b, r) == (RunOf(m1, w, b, r).0, ok && RunOf(m1, w, b, r).1)
  {
    var m1 := KeyedAfter(m, w, a);
    RunAppend(m, w, a, b);
    AdmittedAppend(a, b, KeyedAnswers(m, w, a), KeyedAnswers(m1, w, b), r);
  }

  /** For any steps `f` that the pairs of the checks amount to, the checks in order amount to the run. */
  lemma {:induction false} PairsAreChecks(m: Table, w: int, r: nat, cs: seq<Check>, clock: nat -> int, f: ScopeStep,
                                          n: nat)
    requires n <= |cs|
    requires forall k: nat, m1: Table :: k < |cs| ==>
               RunOf(m1, w, PairOf(r, cs, clock, k), r) ==
               (m1[cs[k].key := f(k, Lookup(m1, cs[k].key)).bucket], f(k, Lookup(m1, cs[k].key)).admits)
    ensures RunOf(m, w, Uninterrupted(r, cs, clock, n), r) == AfterChecks(m, Keys(cs), f, n)
  {
    if n > 0 {
      PairsAreChecks(m, w, r, cs, clock, f, n - 1);
      RunOfAppend(m, w, Uninterrupted(r, cs, clock, n - 1), PairOf(r, cs, clock, n - 1), r);
    }
  }

  /**
  What the three-scope check does for a lone request is one such run: it leaves the same buckets,
  and the request is admitted exactly when no Allow call is refused.
  */
  lemma UninterruptedIsARun(m: Table, w: int, r: nat, cs: seq<Check>, clock: nat -> int, n: nat)
    requires n <= |cs|
    ensures RunOf(m, w, Uninterrupted(r, cs, clock, n), r) == AfterChecks(m, Keys(cs), AllowThenStatus(w, cs, clock), n)
  {
    forall k: nat, m1: Table | k < |cs|
      ensures var o := AllowThenStatus(w, cs, clock)(k, Lookup(m1, cs[k].key));
              RunOf(m1, w, PairOf(r, cs, clock, k), r) == (m1[cs[k].key := o.bucket], o.admits)
    {
      PairIsCheck(m1, w, r, cs, clock, k);
    }
    PairsAreChecks(m, w, r, cs, clock, AllowThenStatus(w, cs, clock), n);
  }

  lemma AdmittedAppend(a: seq<KeyedOp>, b: seq<KeyedOp>, ansA: seq<bool>, ansB: seq<bool>, r: nat)
    requires |a| == |ansA| && |b| == |ansB|
    ensures Admitted(a + b, ansA + ansB, r) <==> Admitted(a, ansA, r) && Admitted(b, ansB, r)
  {
    var ks, ans := a + b, ansA + ansB;
    assert forall i :: 0 <= i < |a| ==> ks[i] == a[i] && ans[i] == ansA[i];
    assert forall i :: 0 <= i < |b| ==> ks[|a| + i] == b[i] && ans[|a| + i] == ansB[i];
    if Admitted(ks, ans, r) {
      forall i | 0 <= i < |b| && b[i].req == r && b[i].op.debit ensures ansB[i] {
        assert ks[|a| + i] == b[i];
      }
      forall i | 0 <= i < |a| && a[i].req == r && a[i].op.debit ensures ansA[i] {
        assert ks[i] == a[i];
      }
    }
  }
}
