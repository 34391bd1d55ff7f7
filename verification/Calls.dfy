/**
Runs that lead from state to state, and the calls they are made of: a thread checks, forwards and
records one call while what is stored is under the limit.
*/
module Calls {
  import opened Common
  import opened Metering
  import opened Budget
  import opened Protocol
  import opened InFlight
  import opened Overshoot
  import Collector

  // ---------------------------------------------------------------- runs that lead from state to state

  /** A run of anything, written with the states it passes through. */
  ghost predicate IsPath<S(!new), T(!new)>(takes: (S, T, S) -> bool, states: seq<S>, steps: seq<T>) {
    |states| == |steps| + 1 &&
    forall i {:trigger steps[i]} :: 0 <= i < |steps| ==> takes(states[i], steps[i], states[i + 1])
  }

  lemma JoinPaths<S(!new), T(!new)>(takes: (S, T, S) -> bool, p: seq<S>, a: seq<T>, q: seq<S>, b: seq<T>)
    requires IsPath(takes, p, a) && IsPath(takes, q, b) && p[|a|] == q[0]
    ensures IsPath(takes, p + q[1..], a + b) && (p + q[1..])[|a + b|] == q[|b|]
  {
    var states, steps := p + q[1..], a + b;
    forall i | 0 <= i < |steps| ensures takes(states[i], steps[i], states[i + 1]) {
      if i < |a| {
        assert steps[i] == a[i];
      } else {
        assert steps[i] == b[i - |a|];
        assert states[i] == q[i - |a|] && states[i + 1] == q[i - |a| + 1];
      }
    }
  }

  /** A step of the protocol whose call, if it makes one, costs at most `cap`. */
  ghost function Takes(c: Config, cap: real): (State, Step, State) -> bool {
    (s: State, st: Step, t: State) => Enabled(c, s, st) && PricedStep(st, cap) && Next(c, s, st) == t
  }

  ghost predicate Path(c: Config, states: seq<State>, steps: seq<Step>, cap: real) {
    IsPath(Takes(c, cap), states, steps)
  }

  /** Some run of calls priced up to `cap` leads from `s` to `t`. */
  ghost predicate Leads(c: Config, s: State, t: State, cap: real) {
    exists states, steps :: Path(c, states, steps, cap) && states[0] == s && states[|steps|] == t
  }

  lemma LeadsNowhere(c: Config, s: State, cap: real)
    ensures Leads(c, s, s, cap)
  {
    assert Path(c, [s], [], cap);
  }

  lemma LeadsByStep(c: Config, s: State, st: Step, cap: real)
    requires Enabled(c, s, st) && PricedStep(st, cap)
    ensures Leads(c, s, Next(c, s, st), cap)
  {
    assert Takes(c, cap)(s, st, Next(c, s, st));
    assert Path(c, [s, Next(c, s, st)], [st], cap);
  }

  lemma LeadsVia(c: Config, s: State, t: State, u: State, cap: real)
    requires Leads(c, s, t, cap) && Leads(c, t, u, cap)
    ensures Leads(c, s, u, cap)
  {
    var p, a :| Path(c, p, a, cap) && p[0] == s && p[|a|] == t;
    var q, b :| Path(c, q, b, cap) && q[0] == t && q[|b|] == u;
    JoinPaths(Takes(c, cap), p, a, q, b);
    assert Path(c, p + q[1..], a + b, cap);
  }

  lemma LeadsOn(c: Config, s: State, st: Step, t: State, cap: real)
    requires Enabled(c, s, st) && PricedStep(st, cap) && Leads(c, Next(c, s, st), t, cap)
    ensures Leads(c, s, t, cap)
  {
    LeadsByStep(c, s, st, cap);
    LeadsVia(c, s, Next(c, s, st), t, cap);
  }

  lemma {:induction false} PathIsRun(c: Config, states: seq<State>, steps: seq<Step>, cap: real)
    requires Path(c, states, steps, cap)
    ensures Runnable(c, states[0], steps) && After(c, states[0], steps) == states[|steps|]
    ensures forall i :: 0 <= i < |steps| ==> PricedStep(steps[i], cap)
    decreases |steps|
  {
    if steps != [] {
      forall i | 0 <= i < |steps| - 1 ensures Takes(c, cap)(states[1..][i], steps[1..][i], states[1..][i + 1]) {
        assert steps[1..][i] == steps[i + 1];
      }
      PathIsRun(c, states[1..], steps[1..], cap);
      assert Takes(c, cap)(states[0], steps[0], states[1]);
      forall i | 0 <= i < |steps| ensures PricedStep(steps[i], cap) {
        assert Takes(c, cap)(states[i], steps[i], states[i + 1]);
      }
    }
  }

  lemma LeadsIsRun(c: Config, s: State, t: State, cap: real) returns (steps: seq<Step>)
    requires Leads(c, s, t, cap)
    ensures Runnable(c, s, steps) && After(c, s, steps) == t
    ensures forall i :: 0 <= i < |steps| ==> PricedStep(steps[i], cap)
  {
    var states, run :| Path(c, states, run, cap) && states[0] == s && states[|run|] == t;
    PathIsRun(c, states, run, cap);
    steps := run;
  }

  // ---------------------------------------------------------------- passing the check under watch

  lemma {:induction false} NoneUnguarded(c: Config, w: Watch, passes: seq<Pass>)
    requires forall i :: 0 <= i < |passes| ==> !Unguarded(c, w, passes[i])
    ensures UnguardedIn(c, w, passes) == 0
  {
    if passes != [] { NoneUnguarded(c, w, passes[..|passes| - 1]); }
  }

  /** The budget row that puts the limit under watch on an agent and a tool, and nothing else. */
  function LimitsOf(w: Watch): Limits {
    if w.period.Day? then Limits(w.limit, 0.0) else Limits(0.0, w.limit)
  }

  function ToolLimitOf(w: Watch): ToolLimit {
    ToolLimit(w.limit, if w.period.Day? then "daily" else "monthly")
  }

  /** What is stored of the spending under watch. */
  function Stored(w: Watch, s: State): real {
    SpentSince(Store(s), w.scope, w.window)
  }

  /** A call of the agent falls under the watch, and the agent and the tool exist. */
  predicate CanCall(w: Watch, gone: set<Owner>, agentID: string) {
    (w.scope.AgentTool? ==> agentID == w.scope.agentID) && HasOwners(gone, agentID, w.scope.toolID)
  }

  ghost predicate CanStart(c: Config, w: Watch, s: State, agentID: string, i: nat) {
    && i < c.requests && i < |s.threads| && s.threads[i].Idle? && CanCall(w, s.gone, agentID)
    && c.start(w.period, s.now) == w.window && w.limit > 0.0 && Stored(w, s) < w.limit
  }

  /** The three reads of an agent check that finds room under its limits. */
  lemma AgentChecked(c: Config, s: State, i: nat, req: Req, limits: Limits, cap: real) returns (passed: seq<Pass>)
    requires i < c.requests && i < |s.threads| && s.threads[i].Idle? && HasOwners(s.gone, req.agentID, req.toolID)
    requires Within(limits.daily, SpentSince(Store(s), AgentScope(req), c.start(Day, s.now)))
    requires Within(limits.monthly, SpentSince(Store(s), AgentScope(req), c.start(Month, s.now)))
    ensures Leads(c, s, Move(s, i, AgentPassed(req), passed), cap)
    ensures passed == AgentPasses(req, s.now,
                                  Guard(limits.daily, SpentSince(Store(s), AgentScope(req), c.start(Day, s.now))),
                                  Guard(limits.monthly, SpentSince(Store(s), AgentScope(req), c.start(Month, s.now))))
  {
    var daily := SpentSince(Store(s), AgentScope(req), c.start(Day, s.now));
    var monthly := SpentSince(Store(s), AgentScope(req), c.start(Month, s.now));
    passed := AgentPasses(req, s.now, Guard(limits.daily, daily), Guard(limits.monthly, monthly));
    var s1 := Next(c, s, ReadBudget(i, req, Some(limits)));
    var s2 := Next(c, s1, ReadDaily(i, true));
    assert s2.threads[i] == GotDaily(req, s.now, limits, daily);
    var s3 := Next(c, s2, ReadMonthly(i, true));
    assert s3 == Move(s, i, AgentPassed(req), passed);
    LeadsByStep(c, s2, ReadMonthly(i, true), cap);
    LeadsOn(c, s1, ReadDaily(i, true), s3, cap);
    LeadsOn(c, s, ReadBudget(i, req, Some(limits)), s3, cap);
  }

  /** An agent whose stored spending is under the limit is let through by a check that saw the limit. */
  lemma AgentLetThroughGuarded(c: Config, w: Watch, s: State, i: nat, req: Req, cap: real) returns (passed: seq<Pass>)
    requires CanStart(c, w, s, req.agentID, i) && w.scope == AgentScope(req)
    ensures UnguardedIn(c, w, passed) == 0 && Leads(c, s, Move(s, i, AgentPassed(req), passed), cap)
  {
    passed := AgentChecked(c, s, i, req, LimitsOf(w), cap);
    NoneUnguarded(c, w, passed);
  }

  lemma AgentForwards(c: Config, w: Watch, s: State, i: nat, req: Req, cap: real) returns (passed: seq<Pass>)
    requires CanStart(c, w, s, req.agentID, i) && w.scope == AgentScope(req)
    ensures UnguardedIn(c, w, passed) == 0 && Leads(c, s, Move(s, i, Forwarding(req), passed), cap)
  {
    var agent := AgentLetThroughGuarded(c, w, s, i, req, cap);
    var tool := ToolPasses(req, s.now, None, None);
    passed := agent + tool;
    NoneUnguarded(c, w, tool);
    UnguardedAppend(c, w, agent, tool);
    var t := Move(s, i, AgentPassed(req), agent);
    var u := Next(c, t, ReadTool(i, None));
    assert u == Move(s, i, Forwarding(req), passed);
    LeadsByStep(c, t, ReadTool(i, None), cap);
    LeadsVia(c, s, t, u, cap);
  }

  /** The reads of a tool check that finds room under the limit, after an agent check that finds no budget row. */
  lemma ToolChecked(c: Config, w: Watch, s: State, i: nat, req: Req, cap: real) returns (total: seq<Pass>)
    requires CanStart(c, w, s, req.agentID, i) && w.scope == WholeTool(req.toolID)
    ensures Leads(c, s, Move(s, i, Forwarding(req), AgentPasses(req, s.now, None, None) + total), cap)
    ensures total == if w.period.Day? then ToolPasses(req, s.now, Some(w.limit), None)
                     else ToolPasses(req, s.now, None, Some(w.limit))
  {
    var agent := AgentPasses(req, s.now, None, None);
    total := if w.period.Day? then ToolPasses(req, s.now, Some(w.limit), None)
             else ToolPasses(req, s.now, None, Some(w.limit));
    var s1 := Next(c, s, ReadBudget(i, req, None));
    var s2 := Next(c, s1, ReadTool(i, Some(ToolLimitOf(w))));
    assert s2.threads[i] == GotTool(req, s.now, w.limit, w.period);
    var s3 := Next(c, s2, ReadTotal(i, true));
    assert (s.passes + agent + []) + total == s.passes + (agent + total);
    assert s3 == Move(s, i, Forwarding(req), agent + total);
    LeadsByStep(c, s2, ReadTotal(i, true), cap);
    LeadsOn(c, s1, ReadTool(i, Some(ToolLimitOf(w))), s3, cap);
    LeadsOn(c, s, ReadBudget(i, req, None), s3, cap);
  }

  /** The same for the total of a tool; the agent has no budget row. */
  lemma ToolForwards(c: Config, w: Watch, s: State, i: nat, req: Req, cap: real) returns (passed: seq<Pass>)
    requires CanStart(c, w, s, req.agentID, i) && w.scope == WholeTool(req.toolID)
    ensures UnguardedIn(c, w, passed) == 0 && Leads(c, s, Move(s, i, Forwarding(req), passed), cap)
  {
    var total := ToolChecked(c, w, s, i, req, cap);
    passed := AgentPasses(req, s.now, None, None) + total;
    NoneUnguarded(c, w, passed);
  }

  // ---------------------------------------------------------------- one call

  /** A call in the scope under watch. */
  function CallOn(w: Watch, agentID: string, cost: real): Call {
    Call(agentID, w.scope.toolID, "GET", "/", 200, 0, 0, 0, true, cost, "", "reported")
  }

  /** Of the spending in the window: all of it, what the table still holds, and what was deleted from it. */
  datatype Books = Books(spent: real, stored: real, forgotten: real)

  /** At instant `at`: nothing lost, no unguarded pass, the window's books, and an agent that can call. */
  ghost predicate Stage(c: Config, w: Watch, s: State, at: int, agentID: string, b: Books) {
    && |s.threads| == c.requests + 1 && s.now == at && c.start(w.period, at) == w.window && CanCall(w, s.gone, agentID)
    && s.dropped == [] && (forall i :: 0 <= i < |s.inserted| ==> s.inserted[i] < |s.batches|)
    && UnguardedIn(c, w, s.passes) == 0 && Books(SpentIn(c, w, s), Stored(w, s), ForgottenIn(c, w, s)) == b
  }

  /** The state after thread `i` made a call and recorded it. */
  function Called(c: Config, s: State, i: nat, tx: Transaction, passed: seq<Pass>): State
    requires i < |s.threads|
  {
    s.(threads := s.threads[i := if Collector.Fills(s.buffer, c.batchSize) then PendingFlush else Idle],
       buffer := s.buffer + [tx], recorded := s.recorded + [tx], passes := s.passes + passed)
  }

  lemma ForwardedIsRecorded(c: Config, s: State, i: nat, call: Call, passed: seq<Pass>, cap: real)
    requires i < |s.threads| && 0.0 <= call.cost <= cap
    ensures Leads(c, Move(s, i, Forwarding(Req(call.agentID, call.toolID)), passed),
                  Called(c, s, i, Transaction(s.now, call), passed), cap)
  {
    var s1 := Move(s, i, Forwarding(Req(call.agentID, call.toolID)), passed);
    var s2 := Next(c, s1, Stamp(i, call));
    var s3 := Next(c, s2, Append(i));
    assert s2.passes == s1.passes + [] == s1.passes;
    assert s3.threads == Called(c, s, i, Transaction(s.now, call), passed).threads;
    LeadsByStep(c, s2, Append(i), cap);
    LeadsOn(c, s1, Stamp(i, call), s3, cap);
  }

  /** An idle thread can make a call of any price, as long as what is stored is under the limit. */
  lemma CallLeads(c: Config, w: Watch, s: State, agentID: string, i: nat, cost: real, cap: real)
    returns (passed: seq<Pass>)
    requires CanStart(c, w, s, agentID, i) && 0.0 <= cost <= cap
    ensures UnguardedIn(c, w, passed) == 0
    ensures Leads(c, s, Called(c, s, i, Transaction(s.now, CallOn(w, agentID, cost)), passed), cap)
  {
    var call := CallOn(w, agentID, cost);
    var req := Req(call.agentID, call.toolID);
    if w.scope.AgentTool? {
      passed := AgentForwards(c, w, s, i, req, cap);
    } else {
      passed := ToolForwards(c, w, s, i, req, cap);
    }
    ForwardedIsRecorded(c, s, i, call, passed, cap);
    LeadsVia(c, s, Move(s, i, Forwarding(req), passed), Called(c, s, i, Transaction(s.now, call), passed), cap);
  }

  /** Its cost is spent, and not yet stored. */
  lemma CalledStage(c: Config, w: Watch, s: State, at: int, agentID: string, b: Books, i: nat, cost: real,
                    passed: seq<Pass>)
    requires Stage(c, w, s, at, agentID, b) && i < |s.threads| && UnguardedIn(c, w, passed) == 0
    ensures Stage(c, w, Called(c, s, i, Transaction(at, CallOn(w, agentID, cost)), passed), at, agentID,
                  b.(spent := b.spent + cost))
  {
    var tx := Transaction(at, CallOn(w, agentID, cost));
    UnguardedAppend(c, w, s.passes, passed);
    WeighAppend(s.recorded, [tx], WindowCost(c, w));
    WeighOne(tx, WindowCost(c, w));
  }
}
