/**
The bound on one agent's spending on one tool is exact too when deletions happen: after a burst has
been stored, every request thread reads the budget row, the agent is deleted, and each thread finds
nothing spent.
*/
module AgentSlack {
  import opened Common
  import opened Metering
  import opened Budget
  import opened Protocol
  import opened InFlight
  import opened Overshoot
  import opened AgentDeletion
  import opened Calls
  import opened Burst
  import opened Slack

  // ---------------------------------------------------------------- storing all that is in flight

  /** What storing a batch leaves alone. */
  predicate SameBooks(s: State, t: State) {
    (t.now, t.buffer, t.recorded, t.dropped, t.passes, t.gone, |t.threads|)
      == (s.now, s.buffer, s.recorded, s.dropped, s.passes, s.gone, |s.threads|)
  }

  /** The first `m` threads are idle, and the others are idle or storing a batch. */
  predicate IdleUpTo(s: State, m: nat) {
    forall i :: 0 <= i < |s.threads| ==> s.threads[i].Idle? || (m <= i && s.threads[i].Inserting?)
  }

  /**
  As long as the largest batch fits into one statement and nothing is deleted, every batch in flight
  can be stored.
  */
  lemma {:induction false} StoreAll(c: Config, s: State, cap: real, m: nat) returns (t: State)
    requires GoodConfig(c) && Inv(c, s) && s.gone == {} && COLUMNS * Largest(c) <= MAX_PARAMETERS
    requires m <= |s.threads| && IdleUpTo(s, m)
    ensures Leads(c, s, t, cap) && SameBooks(s, t) && IdleUpTo(t, |t.threads|)
    decreases |s.threads| - m
  {
    if m == |s.threads| {
      t := s;
      LeadsNowhere(c, s, cap);
    } else if s.threads[m].Idle? {
      t := StoreAll(c, s, cap, m + 1);
    } else {
      var u := Next(c, s, Insert(m, true));
      StepKeepsInv(c, s, Insert(m, true));
      t := StoreAll(c, u, cap, m + 1);
      LeadsOn(c, s, Insert(m, true), t, cap);
    }
  }

  // ---------------------------------------------------------------- reading the row, and finishing late

  /** A thread that has read the row of the agent under watch. */
  function Holder(w: Watch, now: int): PC
    requires w.scope.AgentTool?
  {
    GotBudget(Req(w.scope.agentID, w.scope.toolID), now, LimitsOf(w))
  }

  /** Request threads `m .. n - 1` hold the row. */
  predicate Hold(c: Config, w: Watch, s: State, m: nat, n: nat)
    requires w.scope.AgentTool?
  {
    |s.threads| == c.requests + 1 && n <= c.requests && forall i :: m <= i < n ==> s.threads[i] == Holder(w, s.now)
  }

  lemma {:induction false} ReadAll(c: Config, w: Watch, s: State, cap: real, m: nat) returns (t: State)
    requires w.scope.AgentTool? && s.gone == {} && m <= c.requests && Hold(c, w, s, 0, m)
    requires forall i :: m <= i < c.requests ==> s.threads[i].Idle?
    ensures Leads(c, s, t, cap) && Hold(c, w, t, 0, c.requests) && t == s.(threads := t.threads)
    decreases c.requests - m
  {
    if m == c.requests {
      t := s;
      LeadsNowhere(c, s, cap);
    } else {
      var st := ReadBudget(m, Req(w.scope.agentID, w.scope.toolID), Some(LimitsOf(w)));
      var u := Next(c, s, st);
      assert u.passes == s.passes + [] == s.passes;
      t := ReadAll(c, w, u, cap, m + 1);
      LeadsOn(c, s, st, t, cap);
    }
  }

  /** Nothing is left in the table of what the agent spent on the tool. */
  lemma {:induction false} NothingStored(w: Watch, txs: seq<Transaction>, gone: set<Owner>, since: int)
    requires w.scope.AgentTool? && !HasOwners(gone, w.scope.agentID, w.scope.toolID)
    ensures Weigh(Filter(Kept(gone), txs), CostSince(w.scope, since)) == 0.0
  {
    if txs != [] {
      NothingStored(w, txs[1..], gone, since);
      if Kept(gone)(txs[0]) {
        assert !Covers(w.scope, txs[0]);
        WeighAppend([txs[0]], Filter(Kept(gone), txs[1..]), CostSince(w.scope, since));
        WeighOne(txs[0], CostSince(w.scope, since));
      }
    }
  }

  /** A thread that holds the row passes the check once the agent is deleted, under the limit. */
  lemma LatePass(c: Config, w: Watch, s: State, i: nat, cap: real) returns (passed: seq<Pass>)
    requires w.scope.AgentTool? && IsGone(w, s) && w.limit > 0.0
    requires i < |s.threads| && s.threads[i] == Holder(w, s.now)
    ensures UnguardedIn(c, w, passed) == 0
    ensures Leads(c, s, Move(s, i, AgentPassed(s.threads[i].req), passed), cap)
  {
    var req, limits := s.threads[i].req, LimitsOf(w);
    passed := AgentPasses(req, s.now, Guard(limits.daily, 0.0), Guard(limits.monthly, 0.0));
    NoneUnguarded(c, w, passed);
    NothingStored(w, Inserted(s), s.gone, c.start(Day, s.now));
    NothingStored(w, Inserted(s), s.gone, c.start(Month, s.now));
    var s1 := Next(c, s, ReadDaily(i, true));
    assert s1.threads[i] == GotDaily(req, s.now, limits, 0.0);
    assert s1.passes == s.passes + [] == s.passes;
    assert Next(c, s1, ReadMonthly(i, true)) == Move(s, i, AgentPassed(req), passed);
    LeadsByStep(c, s1, ReadMonthly(i, true), cap);
    LeadsOn(c, s, ReadDaily(i, true), Move(s, i, AgentPassed(req), passed), cap);
  }

  lemma LateForward(c: Config, w: Watch, s: State, i: nat, cap: real) returns (passed: seq<Pass>)
    requires w.scope.AgentTool? && IsGone(w, s) && w.limit > 0.0
    requires i < |s.threads| && s.threads[i] == Holder(w, s.now)
    ensures UnguardedIn(c, w, passed) == 0
    ensures Leads(c, s, Move(s, i, Forwarding(s.threads[i].req), passed), cap)
  {
    var req := s.threads[i].req;
    var agent := LatePass(c, w, s, i, cap);
    var tool := ToolPasses(req, s.now, None, None);
    passed := agent + tool;
    NoneUnguarded(c, w, tool);
    UnguardedAppend(c, w, agent, tool);
    var t := Move(s, i, AgentPassed(req), agent);
    assert (s.passes + agent) + tool == s.passes + passed;
    assert Next(c, t, ReadTool(i, None)) == Move(s, i, Forwarding(req), passed);
    LeadsByStep(c, t, ReadTool(i, None), cap);
    LeadsVia(c, s, t, Move(s, i, Forwarding(req), passed), cap);
  }

  /** After the deletion: threads from `m` on hold the row, and each one before made a call on top of what was spent. */
  ghost predicate LateStage(c: Config, w: Watch, s: State, at: int, m: nat, spent: real, cap: real)
    requires w.scope.AgentTool?
  {
    (Hold(c, w, s, m, c.requests), s.now, IsGone(w, s), s.dropped, UnguardedIn(c, w, s.passes), SpentIn(c, w, s))
      == (true, at, true, [], 0, spent + Times(m, cap))
  }

  /** From a state to a later stage. */
  ghost predicate Later(c: Config, w: Watch, s: State, t: State, at: int, m: nat, spent: real, cap: real)
    requires w.scope.AgentTool?
  {
    (Leads(c, s, t, cap), LateStage(c, w, t, at, m, spent, cap)) == (true, true)
  }

  /** Its call costs `cap`. */
  lemma LateCall(c: Config, w: Watch, s: State, at: int, m: nat, spent: real, cap: real) returns (t: State)
    requires w.scope.AgentTool? && w.limit > 0.0 && cap >= 0.0 && w.window == c.start(w.period, at)
    requires LateStage(c, w, s, at, m, spent, cap) && m < c.requests
    ensures Later(c, w, s, t, at, m + 1, spent, cap)
  {
    var call := CallOn(w, w.scope.agentID, cap);
    var tx := Transaction(at, call);
    var passed := LateForward(c, w, s, m, cap);
    ForwardedIsRecorded(c, s, m, call, passed, cap);
    t := Called(c, s, m, tx, passed);
    LeadsVia(c, s, Move(s, m, Forwarding(Req(call.agentID, call.toolID)), passed), t, cap);
    LateBooks(c, w, s, at, m, spent, cap, passed);
  }

  lemma LateSums(c: Config, w: Watch, s: State, at: int, cap: real, passed: seq<Pass>)
    requires w.scope.AgentTool? && w.window == c.start(w.period, at) && UnguardedIn(c, w, passed) == 0
    ensures var tx := Transaction(at, CallOn(w, w.scope.agentID, cap));
            Weigh(s.recorded + [tx], WindowCost(c, w)) == SpentIn(c, w, s) + cap
    ensures UnguardedIn(c, w, s.passes + passed) == UnguardedIn(c, w, s.passes)
  {
    var tx := Transaction(at, CallOn(w, w.scope.agentID, cap));
    UnguardedAppend(c, w, s.passes, passed);
    WeighAppend(s.recorded, [tx], WindowCost(c, w));
    WeighOne(tx, WindowCost(c, w));
  }

  lemma LateBooks(c: Config, w: Watch, s: State, at: int, m: nat, spent: real, cap: real, passed: seq<Pass>)
    requires w.scope.AgentTool? && w.window == c.start(w.period, at) && UnguardedIn(c, w, passed) == 0
    requires LateStage(c, w, s, at, m, spent, cap) && m < c.requests && m < |s.threads|
    ensures LateStage(c, w, Called(c, s, m, Transaction(at, CallOn(w, w.scope.agentID, cap)), passed), at, m + 1, spent,
                      cap)
  {
    var t := Called(c, s, m, Transaction(at, CallOn(w, w.scope.agentID, cap)), passed);
    LateSums(c, w, s, at, cap, passed);
    assert Hold(c, w, t, m + 1, c.requests);
    assert SpentIn(c, w, t) == spent + Times(m, cap) + cap == spent + Times(m + 1, cap);
  }

  /** The calls of the first `k` threads are made. */
  ghost function LateAt(c: Config, w: Watch, at: int, spent: real, cap: real): (nat, State) -> bool
    requires w.scope.AgentTool?
  {
    (k: nat, s: State) => k <= c.requests ==> LateStage(c, w, s, at, k, spent, cap)
  }

  lemma LateMoves(c: Config, w: Watch, at: int, spent: real, cap: real, k: nat, s: State)
    requires w.scope.AgentTool? && w.limit > 0.0 && cap >= 0.0 && w.window == c.start(w.period, at)
    requires LateAt(c, w, at, spent, cap)(k, s)
    ensures CanMove(LateAt(c, w, at, spent, cap), Leading(c, cap), k, s)
  {
    if k < c.requests {
      var t := LateCall(c, w, s, at, k, spent, cap);
      assert Leading(c, cap)(s, t) && LateAt(c, w, at, spent, cap)(k + 1, t);
    } else {
      LeadsNowhere(c, s, cap);
      assert Leading(c, cap)(s, s) && LateAt(c, w, at, spent, cap)(k + 1, s);
    }
  }

  lemma LateKeepsMoving(c: Config, w: Watch, at: int, spent: real, cap: real)
    requires w.scope.AgentTool? && w.limit > 0.0 && cap >= 0.0 && w.window == c.start(w.period, at)
    ensures KeepsMoving(LateAt(c, w, at, spent, cap), Leading(c, cap))
  {
    forall k: nat, s | LateAt(c, w, at, spent, cap)(k, s)
      ensures CanMove(LateAt(c, w, at, spent, cap), Leading(c, cap), k, s)
    {
      LateMoves(c, w, at, spent, cap, k, s);
    }
    LeadingJoins(c, cap);
  }

  lemma LateCalls(c: Config, w: Watch, s: State, at: int, spent: real, cap: real) returns (t: State)
    requires w.scope.AgentTool? && w.limit > 0.0 && cap >= 0.0 && w.window == c.start(w.period, at)
    requires LateStage(c, w, s, at, 0, spent, cap)
    ensures Later(c, w, s, t, at, c.requests, spent, cap)
  {
    LateKeepsMoving(c, w, at, spent, cap);
    assert LateAt(c, w, at, spent, cap)(0, s);
    t := StepByStep(LateAt(c, w, at, spent, cap), Leading(c, cap), s, c.requests);
    assert LateAt(c, w, at, spent, cap)(c.requests, t) && Leading(c, cap)(s, t);
  }

  // ---------------------------------------------------------------- the exact bound

  /** Nothing lost or unguarded, nothing deleted, and this much spent. */
  ghost predicate Spent(c: Config, w: Watch, s: State, at: int, spent: real) {
    (s.now, s.dropped, UnguardedIn(c, w, s.passes), SpentIn(c, w, s), s.gone, |s.threads|)
      == (at, [], 0, spent, {}, c.requests + 1)
  }

  /** All request threads read the row, and then the agent is deleted. */
  lemma ReadAndDelete(c: Config, w: Watch, s: State, at: int, spent: real, cap: real) returns (t: State)
    requires w.scope.AgentTool? && Spent(c, w, s, at, spent) && IdleUpTo(s, |s.threads|)
    ensures Leads(c, s, t, cap) && LateStage(c, w, t, at, 0, spent, cap)
  {
    var u := ReadAll(c, w, s, cap, 0);
    t := Next(c, u, Delete(Agent(w.scope.agentID)));
    LeadsByStep(c, u, Delete(Agent(w.scope.agentID)), cap);
    LeadsVia(c, s, u, t, cap);
    assert Hold(c, w, t, 0, c.requests);
    assert spent + Times(0, cap) == spent;
  }

  lemma BurstInFlight(e: Scene, s: State, spent: real)
    requires e.c.batchSize >= 1 && IsAt(e, s, Point(Unsettled(e.c), 0, 0, 0, false)) && e.gone == {}
    requires spent == e.stored + e.forgotten + Times(Unsettled(e.c), e.cap)
    ensures IdleUpTo(s, 0) && Spent(e.c, e.w, s, e.at, spent)
  {
  }

  lemma ReachedInv(c: Config, at: int, s: State, cap: real)
    requires GoodConfig(c) && Leads(c, Init(c, at), s, cap)
    ensures Inv(c, s)
  {
    var steps := LeadsIsRun(c, Init(c, at), s, cap);
    InitInv(c, at);
    RunKeepsShape(c, Init(c, at), steps);
  }

  lemma SameBooksSpent(c: Config, w: Watch, s: State, t: State, at: int, spent: real)
    requires Spent(c, w, s, at, spent) && SameBooks(s, t)
    ensures Spent(c, w, t, at, spent)
  {
  }

  lemma StoreBurst(c: Config, w: Watch, cap: real, at: int, u: State, spent: real) returns (t: State)
    requires GoodConfig(c) && COLUMNS * Largest(c) <= MAX_PARAMETERS
    requires Leads(c, Init(c, at), u, cap) && IdleUpTo(u, 0) && Spent(c, w, u, at, spent)
    ensures Leads(c, Init(c, at), t, cap) && IdleUpTo(t, |t.threads|) && Spent(c, w, t, at, spent)
  {
    ReachedInv(c, at, u, cap);
    t := StoreAll(c, u, cap, 0);
    SameBooksSpent(c, w, u, t, at, spent);
    LeadsVia(c, Init(c, at), u, t, cap);
  }

  /** A burst with any amount below the limit stored first. */
  lemma BurstFrom(c: Config, w: Watch, cap: real, at: int, y: real) returns (u: State)
    requires GoodConfig(c) && cap > 0.0 && w.window == c.start(w.period, at) && 0.0 <= y < w.limit
    requires w.scope.AgentTool?
    ensures Leads(c, Init(c, at), u, cap) && IdleUpTo(u, 0) && Spent(c, w, u, at, y + Times(Unsettled(c), cap))
  {
    var e := Opening(c, w, at, cap);
    StartsQuiet(c, w, at, cap);
    u := SettleAndBurst(e, Init(c, at), y);
    BurstInFlight(e.(stored := y), u, y + Times(Unsettled(c), cap));
  }

  lemma LateCallsOfAll(c: Config, w: Watch, cap: real, at: int, s: State, spent: real) returns (t: State)
    requires w.scope.AgentTool? && w.limit > 0.0 && cap >= 0.0 && w.window == c.start(w.period, at)
    requires Spent(c, w, s, at, spent) && IdleUpTo(s, |s.threads|)
    ensures Leads(c, s, t, cap) && LateStage(c, w, t, at, c.requests, spent, cap)
  {
    var u := ReadAndDelete(c, w, s, at, spent, cap);
    t := LateCalls(c, w, u, at, spent, cap);
    LeadsVia(c, s, u, t, cap);
  }

  /** For every amount below the limit there is a run that spends it, `Unsettled` calls, and a call of every thread. */
  lemma LateRun(c: Config, w: Watch, cap: real, at: int, y: real) returns (steps: seq<Step>)
    requires GoodConfig(c) && cap > 0.0 && w.window == c.start(w.period, at) && 0.0 <= y < w.limit
    requires w.scope.AgentTool? && COLUMNS * Largest(c) <= MAX_PARAMETERS
    ensures GuardedRun(c, w, cap, at, steps)
    ensures SpentIn(c, w, After(c, Init(c, at), steps)) == y + Times(Unsettled(c), cap) + Times(c.requests, cap)
  {
    var spent := y + Times(Unsettled(c), cap);
    var burst := BurstFrom(c, w, cap, at, y);
    var stored := StoreBurst(c, w, cap, at, burst, spent);
    var t := LateCallsOfAll(c, w, cap, at, stored, spent);
    LeadsVia(c, Init(c, at), stored, t, cap);
    steps := LeadsIsRun(c, Init(c, at), t, cap);
  }

  lemma AgentBoundHolds(c: Config, w: Watch, cap: real, x: real)
    requires GoodConfig(c) && w.limit > 0.0 && w.scope.AgentTool?
    requires x >= w.limit + Times(Unsettled(c) + c.requests, cap)
    ensures AlwaysSpendsLess(c, w, cap, x)
  {
    forall now, steps | GuardedRun(c, w, cap, now, steps)
      ensures SpentIn(c, w, After(c, Init(c, now), steps)) < x
    {
      AgentOvershootBound(c, w, cap, now, steps);
      assert Unsettled(c) + c.requests == LateAllowance(c, w, After(c, Init(c, now), steps));
    }
  }

  lemma AgentBoundIsLeast(c: Config, w: Watch, cap: real, at: int, x: real)
    requires GoodConfig(c) && w.limit > 0.0 && cap > 0.0 && w.window == c.start(w.period, at)
    requires w.scope.AgentTool? && COLUMNS * Largest(c) <= MAX_PARAMETERS
    requires x < w.limit + Times(Unsettled(c) + c.requests, cap)
    ensures !AlwaysSpendsLess(c, w, cap, x)
  {
    TimesPlus(Unsettled(c), c.requests, cap);
    var slack := Times(Unsettled(c), cap) + Times(c.requests, cap);
    var y := if x > slack then x - slack else 0.0;
    var steps := LateRun(c, w, cap, at, y);
    assert GuardedRun(c, w, cap, at, steps) && SpentIn(c, w, After(c, Init(c, at), steps)) >= x;
  }

  /**
  For one agent on one tool deletions add one call of every request thread to the bound, and no more:
  over all runs without failures, whatever they delete, spending stays below `x` exactly when `x` is
  at least the limit, `Unsettled` calls, and a call of every request thread.
  */
  lemma AgentBoundIsSharp(c: Config, w: Watch, cap: real, at: int, x: real)
    requires GoodConfig(c) && w.limit > 0.0 && cap > 0.0 && w.window == c.start(w.period, at)
    requires w.scope.AgentTool? && COLUMNS * Largest(c) <= MAX_PARAMETERS
    ensures AlwaysSpendsLess(c, w, cap, x) <==> x >= w.limit + Times(Unsettled(c) + c.requests, cap)
  {
    if x >= w.limit + Times(Unsettled(c) + c.requests, cap) {
      AgentBoundHolds(c, w, cap, x);
    } else {
      AgentBoundIsLeast(c, w, cap, at, x);
    }
  }
}
