/**
The bound on overspending is exact.  For every configuration and every limit there are runs, with
no failed insert and no unguarded pass, that come as close to it as one likes; and when the agents of
a tool are deleted and replaced, they go past every amount.
*/
module Slack {
  import opened Common
  import opened Metering
  import opened Budget
  import opened Protocol
  import opened InFlight
  import opened Overshoot
  import opened Calls
  import opened Burst
  import Collector

  // ---------------------------------------------------------------- spending up to the limit

  /** What the table holds was stored by the agent; others that stored something are deleted. */
  predicate StoredBy(s: State, agentID: string) {
    forall i :: 0 <= i < |Inserted(s)| ==>
      Inserted(s)[i].call.agentID == agentID || Agent(Inserted(s)[i].call.agentID) in s.gone
  }

  /** With nothing in flight: all that was ever recorded was stored. */
  ghost predicate Quiet(e: Scene, s: State) {
    (IsAt(e, s, Point(0, 0, 0, e.c.requests, true)), Inserted(s), StoredBy(s, e.agentID)) == (true, s.recorded, true)
  }

  function OneCall(e: Scene, cost: real): Transaction {
    Transaction(e.at, CallOn(e.w, e.agentID, cost))
  }

  /** After one call its thread is idle, or has a flush to do. */
  ghost predicate OneBuffered(e: Scene, s: State, cost: real, pending: nat) {
    (Stage(e.c, e.w, s, e.at, e.agentID, Books(e.stored + e.forgotten + cost, e.stored, e.forgotten)),
     Row(e.c, s, pending, e.c.requests, true), s.buffer, s.gone, s.recorded, StoredBy(s, e.agentID))
      == (true, true, [OneCall(e, cost)], e.gone, Inserted(s) + [OneCall(e, cost)], true)
  }

  lemma OneCalled(e: Scene, s: State, cost: real, passed: seq<Pass>) returns (pending: nat)
    requires GoodConfig(e.c) && Quiet(e, s) && UnguardedIn(e.c, e.w, passed) == 0 && |s.threads| > 0
    ensures OneBuffered(e, Called(e.c, s, 0, OneCall(e, cost), passed), cost, pending) && pending <= 1
  {
    var t := Called(e.c, s, 0, OneCall(e, cost), passed);
    pending := if Collector.Fills(s.buffer, e.c.batchSize) then 1 else 0;
    CalledStage(e.c, e.w, s, e.at, e.agentID, BooksAfter(e, 0), 0, cost, passed);
    assert BooksAfter(e, 0).spent == e.stored + e.forgotten;
    assert Row(e.c, t, pending, e.c.requests, true);
    assert s.buffer + [OneCall(e, cost)] == [OneCall(e, cost)];
  }

  /** The state once the ticker has stored what is buffered. */
  function BufferStored(s: State): State {
    s.(buffer := [], batches := s.batches + [s.buffer], inserted := s.inserted + [|s.batches|])
  }

  lemma InsertedMore(s: State)
    requires forall i :: 0 <= i < |s.inserted| ==> s.inserted[i] < |s.batches|
    ensures Inserted(BufferStored(s)) == Inserted(s) + s.buffer
  {
    var t := BufferStored(s);
    GatherOld(s.batches, s.buffer, s.inserted);
    assert t.inserted[..|t.inserted| - 1] == s.inserted;
    assert Inserted(t) == Gather(t.batches, s.inserted) + t.batches[|s.batches|];
  }

  /** A buffered call of the scope counts as stored once it is inserted. */
  lemma StoredStage(c: Config, w: Watch, s: State, at: int, agentID: string, b: Books, cost: real)
    requires GoodConfig(c) && Stage(c, w, s, at, agentID, b)
    requires s.buffer == [Transaction(at, CallOn(w, agentID, cost))]
    ensures Stage(c, w, BufferStored(s), at, agentID, b.(stored := b.stored + cost))
  {
    StoreGrows(s);
    WeighAppend(Store(s), s.buffer, CostSince(w.scope, w.window));
    WeighOne(s.buffer[0], CostSince(w.scope, w.window));
  }

  lemma StoreGrows(s: State)
    requires forall i :: 0 <= i < |s.inserted| ==> s.inserted[i] < |s.batches|
    requires forall i :: 0 <= i < |s.buffer| ==> Kept(s.gone)(s.buffer[i])
    ensures Store(BufferStored(s)) == Store(s) + s.buffer && Forgotten(BufferStored(s)) == Forgotten(s)
  {
    InsertedMore(s);
    FilterAppend(Kept(s.gone), Inserted(s), s.buffer);
    FilterAppend(Dropped(s.gone), Inserted(s), s.buffer);
    FilterAll(Kept(s.gone), s.buffer);
    FilterNone(Dropped(s.gone), s.buffer);
  }

  lemma StoreLeads(c: Config, s: State, cap: real)
    requires |s.threads| == c.requests + 1 && s.threads[c.requests].Idle? && s.buffer != [] &&
               Storable(s.gone, s.buffer)
    ensures Leads(c, s, BufferStored(s), cap)
  {
    var u := Next(c, s, Drain(c.requests));
    var t := Next(c, u, Insert(c.requests, true));
    assert t.threads == s.threads;
    LeadsByStep(c, u, Insert(c.requests, true), cap);
    LeadsOn(c, s, Drain(c.requests), t, cap);
  }

  /** A buffered call is stored by the ticker. */
  ghost predicate OneStored(e: Scene, s: State, pending: nat) {
    (IsAt(e, s, Point(0, 0, pending, e.c.requests, true)), Inserted(s), StoredBy(s, e.agentID)) ==
        (true, s.recorded, true)
  }

  lemma SameThreadsSameRow(c: Config, s: State, t: State, m: nat, p: nat, ticker: bool)
    requires Row(c, s, m, p, ticker) && t.threads == s.threads
    ensures Row(c, t, m, p, ticker)
  {
  }

  lemma BufferedStage(e: Scene, s: State, cost: real, pending: nat)
    requires GoodConfig(e.c) && OneBuffered(e, s, cost, pending)
    ensures Stage(e.c, e.w, BufferStored(s), e.at, e.agentID, BooksAfter(e.(stored := e.stored + cost), 0))
    ensures Inserted(BufferStored(s)) == s.recorded
  {
    StoredStage(e.c, e.w, s, e.at, e.agentID, Books(e.stored + e.forgotten + cost, e.stored, e.forgotten), cost);
    InsertedMore(s);
    assert BooksAfter(e.(stored := e.stored + cost), 0).spent == e.stored + e.forgotten + cost;
  }

  lemma BufferedStored(e: Scene, s: State, cost: real, pending: nat)
    requires GoodConfig(e.c) && OneBuffered(e, s, cost, pending)
    ensures OneStored(e.(stored := e.stored + cost), BufferStored(s), pending)
  {
    BufferedStage(e, s, cost, pending);
    SameThreadsSameRow(e.c, s, BufferStored(s), pending, e.c.requests, true);
    assert StoredBy(BufferStored(s), e.agentID);
  }

  /** Its thread then finds nothing to flush. */
  lemma ThenQuiet(e: Scene, s: State, pending: nat) returns (t: State)
    requires OneStored(e, s, pending) && pending <= 1
    ensures Leads(e.c, s, t, e.cap) && Quiet(e, t)
  {
    if pending == 0 {
      t := s;
      LeadsNowhere(e.c, s, e.cap);
    } else {
      t := Next(e.c, s, Drain(0));
      LeadsByStep(e.c, s, Drain(0), e.cap);
      DrainedStage(e.c, e.w, s, e.at, e.agentID, BooksAfter(e, 0), 0);
      assert Row(e.c, t, 0, e.c.requests, true);
    }
  }

  lemma BufferedStorable(e: Scene, s: State, cost: real, pending: nat)
    requires OneBuffered(e, s, cost, pending)
    ensures |s.threads| == e.c.requests + 1 && s.threads[e.c.requests].Idle? && s.buffer != []
    ensures Storable(s.gone, s.buffer)
  {
  }

  /** From one state to another, and to quiet books. */
  ghost predicate Settles(e: Scene, s: State, t: State, after: Scene) {
    (Leads(e.c, s, t, e.cap), Quiet(after, t)) == (true, true)
  }

  lemma SettleBuffered(e: Scene, s: State, cost: real, pending: nat) returns (t: State)
    requires GoodConfig(e.c) && OneBuffered(e, s, cost, pending) && pending <= 1
    ensures Settles(e, s, t, e.(stored := e.stored + cost))
  {
    BufferedStorable(e, s, cost, pending);
    StoreLeads(e.c, s, e.cap);
    BufferedStored(e, s, cost, pending);
    t := ThenQuiet(e.(stored := e.stored + cost), BufferStored(s), pending);
    LeadsVia(e.c, s, BufferStored(s), t, e.cap);
  }

  /** A call made and stored, with nothing in flight before or after. */
  lemma SettleOne(e: Scene, s: State, cost: real) returns (t: State)
    requires GoodScene(e) && Quiet(e, s) && 0.0 <= cost <= e.cap
    ensures Settles(e, s, t, e.(stored := e.stored + cost))
  {
    AtCanStart(e, s, Point(0, 0, 0, e.c.requests, true));
    var passed := CallLeads(e.c, e.w, s, e.agentID, 0, cost, e.cap);
    var called := Called(e.c, s, 0, OneCall(e, cost), passed);
    var pending := OneCalled(e, s, cost, passed);
    t := SettleBuffered(e, called, cost, pending);
    LeadsVia(e.c, s, called, t, e.cap);
  }

  lemma SettlesVia(e: Scene, s: State, t: State, u: State, mid: Scene, after: Scene)
    requires Settles(e, s, t, mid) && Settles(mid, t, u, after) && (mid.c, mid.cap) == (e.c, e.cap)
    ensures Settles(e, s, u, after)
  {
    LeadsVia(e.c, s, t, u, e.cap);
  }

  /** Room for `n` more calls of one price. */
  predicate HasRoom(e: Scene, cost: real, n: nat) {
    0.0 <= cost <= e.cap && e.stored + Times(n, cost) < e.w.limit
  }

  /** The scene once `n` calls are stored. */
  function Stores(e: Scene, cost: real, n: nat): Scene {
    e.(stored := e.stored + Times(n, cost))
  }

  lemma OneMore(e: Scene, cost: real, n: nat)
    requires n > 0 && GoodScene(e) && HasRoom(e, cost, n)
    ensures HasRoom(e, cost, n - 1) && GoodScene(Stores(e, cost, n - 1))
    ensures Stores(Stores(e, cost, n - 1), cost, 1) == Stores(e, cost, n)
  {
    TimesUp(n - 1, n, cost);
    assert Times(1, cost) == cost && Times(n, cost) == cost + Times(n - 1, cost);
  }

  lemma StoresOne(e: Scene, s: State, cost: real) returns (t: State)
    requires GoodScene(e) && Quiet(e, s) && 0.0 <= cost <= e.cap
    ensures Settles(e, s, t, Stores(e, cost, 1))
  {
    t := SettleOne(e, s, cost);
    assert Times(1, cost) == cost;
  }

  /** Calls made and stored one after another, with nothing in flight between them. */
  lemma {:induction false} Settle(e: Scene, s: State, cost: real, n: nat) returns (t: State)
    requires GoodScene(e) && Quiet(e, s) && HasRoom(e, cost, n)
    ensures Settles(e, s, t, Stores(e, cost, n))
    decreases n
  {
    if n == 0 {
      t := s;
      LeadsNowhere(e.c, s, e.cap);
      assert Stores(e, cost, 0) == e;
    } else {
      var mid := Stores(e, cost, n - 1);
      OneMore(e, cost, n);
      var u := Settle(e, s, cost, n - 1);
      t := StoresOne(mid, u, cost);
      SettlesVia(e, s, u, t, mid, Stores(e, cost, n));
    }
  }

  /** Any amount is some number of calls of one price up to `cap`. */
  lemma SplitAmount(y: real, cap: real) returns (n: nat, cost: real)
    requires y >= 0.0 && cap > 0.0
    ensures 0.0 <= cost <= cap && Times(n, cost) == y
  {
    n := (y / cap).Floor + 1;
    SplitWithin(y, cap, n);
    cost := y / n as real;
    TimesIs(n, cost);
  }

  lemma SplitWithin(y: real, cap: real, n: nat)
    requires y >= 0.0 && cap > 0.0 && n >= 1 && y / cap <= n as real
    ensures 0.0 <= y / n as real <= cap
  {
    assert y == (y / cap) * cap;
    assert y <= n as real * cap;
  }

  // ---------------------------------------------------------------- deleting agents

  /** The `n`-th of a supply of agents. */
  function Name(n: nat): string {
    seq(n, i => 'a')
  }

  function GoneAgents(n: nat): set<Owner> {
    if n == 0 then {} else GoneAgents(n - 1) + {Agent(Name(n - 1))}
  }

  lemma {:induction false} NextExists(n: nat, owner: Owner)
    requires owner in GoneAgents(n)
    ensures owner.Agent? && |owner.agentID| < n
  {
    if n > 0 && owner != Agent(Name(n - 1)) { NextExists(n - 1, owner); }
  }

  /** The `n`-th agent calls; those before it spent this much and are deleted; nothing is stored. */
  function Turn(c: Config, w: Watch, at: int, cap: real, n: nat, forgotten: real): Scene {
    Scene(c, w, at, Name(n), 0.0, forgotten, cap, GoneAgents(n))
  }

  /** The `n`-th agent calls, and those before it are deleted. */
  predicate CanDelete(e: Scene, n: nat) {
    (e.w.scope.WholeTool?, e.agentID, e.gone) == (true, Name(n), GoneAgents(n))
  }

  function Deleted(e: Scene, n: nat): Scene {
    Turn(e.c, e.w, e.at, e.cap, n + 1, e.stored + e.forgotten)
  }

  /** Once the agent is deleted nothing of the tool's spending is stored, and the next agent can call. */
  lemma DeleteAgent(e: Scene, s: State, n: nat) returns (t: State)
    requires Quiet(e, s) && CanDelete(e, n)
    ensures Settles(e, s, t, Deleted(e, n))
  {
    t := Next(e.c, s, Delete(Agent(e.agentID)));
    LeadsByStep(e.c, s, Delete(Agent(e.agentID)), e.cap);
    DeletedStage(e, s, n);
    assert Row(e.c, t, 0, e.c.requests, true);
    assert StoredBy(t, Name(n + 1));
  }

  lemma DeletedStage(e: Scene, s: State, n: nat)
    requires Quiet(e, s) && CanDelete(e, n)
    ensures Stage(e.c, e.w, s.(gone := s.gone + {Agent(e.agentID)}), e.at, Name(n + 1), BooksAfter(Deleted(e, n), 0))
  {
    var t := s.(gone := s.gone + {Agent(e.agentID)});
    if Agent(Name(n + 1)) in t.gone { NextExists(n + 1, Agent(Name(n + 1))); }
    assert Tool(e.w.scope.toolID) !in t.gone;
    FilterNone(Kept(t.gone), Inserted(t));
    FilterAll(Dropped(t.gone), Inserted(t));
    assert Stored(e.w, t) == 0.0;
    assert ForgottenIn(e.c, e.w, t) == SpentIn(e.c, e.w, s);
  }

  /** Where an agent spends `more`, below the limit, in `n` calls. */
  datatype Plan = Plan(c: Config, w: Watch, at: int, cap: real, cost: real, n: nat, more: real)

  ghost predicate GoodPlan(p: Plan) {
    && GoodConfig(p.c) && 0.0 < p.w.limit && p.w.scope.WholeTool? && 0.0 <= p.cost <= p.cap
    && p.more == Times(p.n, p.cost) && p.more < p.w.limit
  }

  /** The `k`-th agent has its turn; those before it spent `forgotten` and are deleted. */
  function TurnOf(p: Plan, k: nat, forgotten: real): Scene {
    Turn(p.c, p.w, p.at, p.cap, k, forgotten)
  }

  /** Settled calls lead to `mid`, and a deletion from there to `next`. */
  lemma SpendThenDelete(e: Scene, s: State, cost: real, n: nat, mid: Scene, next: Scene, k: nat) returns (t: State)
    requires GoodScene(e) && Quiet(e, s) && HasRoom(e, cost, n)
    requires mid == Stores(e, cost, n) && CanDelete(mid, k) && next == Deleted(mid, k)
    ensures Settles(e, s, t, next)
  {
    var u := Settle(e, s, cost, n);
    t := DeleteAgent(mid, u, k);
    SettlesVia(e, s, u, t, mid, next);
  }

  /** An agent spends an amount below the limit and is deleted. */
  lemma TakeTurn(p: Plan, s: State, k: nat, forgotten: real, after: real) returns (t: State)
    requires GoodPlan(p) && Quiet(TurnOf(p, k, forgotten), s) && after == p.more + forgotten
    ensures Settles(TurnOf(p, k, forgotten), s, t, TurnOf(p, k + 1, after))
  {
    var e := TurnOf(p, k, forgotten);
    var mid := Stores(e, p.cost, p.n);
    assert Deleted(mid, k) == TurnOf(p, k + 1, after);
    t := SpendThenDelete(e, s, p.cost, p.n, mid, Deleted(mid, k), k);
  }

  ghost predicate CanMove<S(!new)>(at: (nat, S) -> bool, leads: (S, S) -> bool, k: nat, s: S) {
    exists t :: leads(s, t) && at(k + 1, t)
  }

  ghost predicate KeepsMoving<S(!new)>(at: (nat, S) -> bool, leads: (S, S) -> bool) {
    && (forall u :: leads(u, u))
    && (forall u, v, w :: leads(u, v) && leads(v, w) ==> leads(u, w))
    && (forall k: nat, u {:trigger CanMove(at, leads, k, u)} :: at(k, u) ==> CanMove(at, leads, k, u))
  }

  /** Step by step, whatever the steps are. */
  lemma {:induction false} StepByStep<S(!new)>(at: (nat, S) -> bool, leads: (S, S) -> bool, s: S, n: nat)
    returns (t: S)
    requires at(0, s) && KeepsMoving(at, leads)
    ensures leads(s, t) && at(n, t)
    decreases n
  {
    if n == 0 {
      t := s;
    } else {
      var u := StepByStep(at, leads, s, n - 1);
      assert CanMove(at, leads, n - 1, u);
      t :| leads(u, t) && at(n - 1 + 1, t);
    }
  }

  /** After `k` turns. */
  ghost function AfterTurns(p: Plan): (nat, State) -> bool {
    (k: nat, u: State) => Quiet(TurnOf(p, k, Times(k, p.more)), u)
  }

  ghost function Leading(c: Config, cap: real): (State, State) -> bool {
    (u: State, v: State) => Leads(c, u, v, cap)
  }

  lemma LeadingJoins(c: Config, cap: real)
    ensures forall u :: Leading(c, cap)(u, u)
    ensures forall u, v, w :: Leading(c, cap)(u, v) && Leading(c, cap)(v, w) ==> Leading(c, cap)(u, w)
  {
    forall u ensures Leading(c, cap)(u, u) { LeadsNowhere(c, u, cap); }
    forall u, v, w | Leading(c, cap)(u, v) && Leading(c, cap)(v, w) ensures Leading(c, cap)(u, w) {
      LeadsVia(c, u, v, w, cap);
    }
  }

  lemma NextTurn(p: Plan, k: nat, s: State, t: State, e: Scene)
    requires (e.c, e.cap) == (p.c, p.cap) && Settles(e, s, t, TurnOf(p, k, Times(k, p.more)))
    ensures Leading(p.c, p.cap)(s, t) && AfterTurns(p)(k, t)
  {
  }

  lemma TurnMoves(p: Plan, k: nat, u: State)
    requires GoodPlan(p) && AfterTurns(p)(k, u)
    ensures CanMove(AfterTurns(p), Leading(p.c, p.cap), k, u)
  {
    var v := TakeTurn(p, u, k, Times(k, p.more), Times(k + 1, p.more));
    NextTurn(p, k + 1, u, v, TurnOf(p, k, Times(k, p.more)));
  }

  lemma TurnsKeepMoving(p: Plan)
    requires GoodPlan(p)
    ensures KeepsMoving(AfterTurns(p), Leading(p.c, p.cap))
  {
    forall k: nat, u | AfterTurns(p)(k, u) ensures CanMove(AfterTurns(p), Leading(p.c, p.cap), k, u) {
      TurnMoves(p, k, u);
    }
    LeadingJoins(p.c, p.cap);
  }

  /** Agent after agent spends an amount below the limit and is deleted. */
  lemma {:induction false} SpendAndDelete(p: Plan, s: State, rounds: nat) returns (t: State)
    requires GoodPlan(p) && AfterTurns(p)(0, s)
    ensures Leading(p.c, p.cap)(s, t) && AfterTurns(p)(rounds, t)
  {
    TurnsKeepMoving(p);
    t := StepByStep(AfterTurns(p), Leading(p.c, p.cap), s, rounds);
  }

  // ---------------------------------------------------------------- the exact bound

  /** A run priced up to `cap` in which no insert fails and every pass in the window was guarded. */
  ghost predicate GuardedRun(c: Config, w: Watch, cap: real, now: int, steps: seq<Step>) {
    PricedRun(c, now, steps, cap) && Unfailing(c, w, After(c, Init(c, now), steps))
  }

  /** Such a run whose deletions took at most `f` from what the window has stored. */
  ghost predicate ForgettingRun(c: Config, w: Watch, cap: real, f: real, now: int, steps: seq<Step>) {
    GuardedRun(c, w, cap, now, steps) && ForgottenIn(c, w, After(c, Init(c, now), steps)) <= f
  }

  /** Every such run spends less than `x` in the window. */
  ghost predicate SpendsLess(c: Config, w: Watch, cap: real, f: real, x: real) {
    forall now, steps :: ForgettingRun(c, w, cap, f, now, steps) ==> SpentIn(c, w, After(c, Init(c, now), steps)) < x
  }

  /** From books with nothing in flight, `Unsettled` calls on top of any amount stored below the limit. */
  lemma SettleAndBurst(e: Scene, s: State, y: real) returns (t: State)
    requires GoodScene(e) && e.cap > 0.0 && Quiet(e, s) && e.stored == 0.0 && 0.0 <= y < e.w.limit
    ensures Leads(e.c, s, t, e.cap)
    ensures IsAt(e.(stored := y), t, Point(Unsettled(e.c), 0, 0, 0, false))
  {
    var n, cost := SplitAmount(y, e.cap);
    var settled := Settle(e, s, cost, n);
    assert Stores(e, cost, n) == e.(stored := y);
    AllInFlight(e.c);
    t := GoesThere(e.(stored := y), settled, Point(0, 0, 0, e.c.requests, true), Point(Unsettled(e.c), 0, 0, 0, false));
    LeadsVia(e.c, s, settled, t, e.cap);
  }

  /** The agent that calls first. */
  function FirstAgent(w: Watch): string {
    if w.scope.AgentTool? then w.scope.agentID else Name(0)
  }

  function Opening(c: Config, w: Watch, at: int, cap: real): Scene {
    Scene(c, w, at, FirstAgent(w), 0.0, 0.0, cap, {})
  }

  lemma StartsQuiet(c: Config, w: Watch, at: int, cap: real)
    requires GoodConfig(c) && w.window == c.start(w.period, at)
    ensures Quiet(Opening(c, w, at, cap), Init(c, at))
  {
    var s, e := Init(c, at), Opening(c, w, at, cap);
    assert Stage(c, w, s, at, e.agentID, BooksAfter(e, 0));
    assert Row(c, s, 0, c.requests, true);
  }

  /** For a tool any amount can be spent and deleted first. */
  lemma SpendAndForget(c: Config, w: Watch, cap: real, f: real, at: int) returns (n: nat, t: State)
    requires GoodConfig(c) && cap > 0.0 && w.window == c.start(w.period, at) && 0.0 < w.limit
    requires f >= 0.0 && w.scope.WholeTool?
    ensures Leads(c, Init(c, at), t, cap) && Quiet(Turn(c, w, at, cap, n, f), t)
  {
    StartsQuiet(c, w, at, cap);
    var rounds, part := SplitAmount(f, w.limit / 2.0);
    var m, cost := SplitAmount(part, cap);
    var p := Plan(c, w, at, cap, cost, m, part);
    assert Opening(c, w, at, cap) == TurnOf(p, 0, Times(0, part));
    assert AfterTurns(p)(0, Init(c, at));
    t := SpendAndDelete(p, Init(c, at), rounds);
    assert Leading(p.c, p.cap)(Init(c, at), t) && AfterTurns(p)(rounds, t);
    n := rounds;
  }

  /** And then spending can go up to the limit and past it. */
  lemma ForgetAndBurst(c: Config, w: Watch, cap: real, f: real, at: int, y: real) returns (e: Scene, t: State)
    requires GoodConfig(c) && cap > 0.0 && w.window == c.start(w.period, at) && 0.0 <= y < w.limit
    requires f >= 0.0 && (w.scope.WholeTool? || f == 0.0)
    ensures (e.c, e.w, e.cap, e.stored, e.forgotten) == (c, w, cap, y, f)
    ensures Leads(c, Init(c, at), t, cap) && IsAt(e, t, Point(Unsettled(c), 0, 0, 0, false))
  {
    if w.scope.AgentTool? {
      StartsQuiet(c, w, at, cap);
      e := Opening(c, w, at, cap).(stored := y);
      t := SettleAndBurst(Opening(c, w, at, cap), Init(c, at), y);
    } else {
      var n, u := SpendAndForget(c, w, cap, f, at);
      e := Turn(c, w, at, cap, n, f).(stored := y);
      t := SettleAndBurst(Turn(c, w, at, cap, n, f), u, y);
      LeadsVia(c, Init(c, at), u, t, cap);
    }
  }

  /**
  For every amount below the limit and, for a tool, every amount deleted, there is a run that spends
  both and `Unsettled` calls on top of them.
  */
  lemma OvershootingRun(c: Config, w: Watch, cap: real, f: real, at: int, y: real) returns (steps: seq<Step>)
    requires GoodConfig(c) && cap > 0.0 && w.window == c.start(w.period, at) && 0.0 <= y < w.limit
    requires f >= 0.0 && (w.scope.WholeTool? || f == 0.0)
    ensures ForgettingRun(c, w, cap, f, at, steps)
    ensures SpentIn(c, w, After(c, Init(c, at), steps)) == y + f + Times(Unsettled(c), cap)
  {
    var e, t := ForgetAndBurst(c, w, cap, f, at, y);
    steps := LeadsIsRun(c, Init(c, at), t, cap);
  }

  lemma BoundIsLeast(c: Config, w: Watch, cap: real, f: real, at: int, x: real)
    requires GoodConfig(c) && w.limit > 0.0 && cap > 0.0 && w.window == c.start(w.period, at)
    requires f >= 0.0 && (w.scope.WholeTool? || f == 0.0) && x < w.limit + f + Times(Unsettled(c), cap)
    ensures !SpendsLess(c, w, cap, f, x)
  {
    var slack := f + Times(Unsettled(c), cap);
    var y := if x > slack then x - slack else 0.0;
    var steps := OvershootingRun(c, w, cap, f, at, y);
    assert ForgettingRun(c, w, cap, f, at, steps) && SpentIn(c, w, After(c, Init(c, at), steps)) >= x;
  }

  lemma BoundHolds(c: Config, w: Watch, cap: real, f: real, x: real)
    requires GoodConfig(c) && w.limit > 0.0 && x >= w.limit + f + Times(Unsettled(c), cap)
    ensures SpendsLess(c, w, cap, f, x)
  {
    forall now, steps | ForgettingRun(c, w, cap, f, now, steps)
      ensures SpentIn(c, w, After(c, Init(c, now), steps)) < x
    {
      GuardedOvershoot(c, w, cap, now, steps);
    }
  }

  /**
  The bound on overspending is the least one.  Over all runs without failures whose calls cost up to
  `cap` and whose deletions take at most `f` from what the window has stored, spending stays below
  `x` exactly when `x` is at least the limit, `f` and `Unsettled` calls.  For one agent on a tool this
  is said of runs that delete nothing of it; `AgentBoundIsSharp` says what deletions do there.
  */
  lemma BoundIsSharp(c: Config, w: Watch, cap: real, f: real, at: int, x: real)
    requires GoodConfig(c) && w.limit > 0.0 && cap > 0.0 && w.window == c.start(w.period, at)
    requires f >= 0.0 && (w.scope.WholeTool? || f == 0.0)
    ensures SpendsLess(c, w, cap, f, x) <==> x >= w.limit + f + Times(Unsettled(c), cap)
  {
    if x >= w.limit + f + Times(Unsettled(c), cap) {
      BoundHolds(c, w, cap, f, x);
    } else {
      BoundIsLeast(c, w, cap, f, at, x);
    }
  }

  /**
  For a tool, the limit and `Unsettled` calls bound spending exactly as long as deletions take nothing
  from what the window has stored.
  */
  lemma ToolBoundSurvivesIff(c: Config, w: Watch, cap: real, f: real, at: int)
    requires GoodConfig(c) && w.limit > 0.0 && cap > 0.0 && w.window == c.start(w.period, at)
    requires f >= 0.0 && w.scope.WholeTool?
    ensures SpendsLess(c, w, cap, f, w.limit + Times(Unsettled(c), cap)) <==> f == 0.0
  {
    BoundIsSharp(c, w, cap, f, at, w.limit + Times(Unsettled(c), cap));
  }

  /** Every guarded run without failed inserts spends less than `x` in the window, whatever it deletes. */
  ghost predicate AlwaysSpendsLess(c: Config, w: Watch, cap: real, x: real) {
    forall now, steps :: GuardedRun(c, w, cap, now, steps) ==> SpentIn(c, w, After(c, Init(c, now), steps)) < x
  }

  /** On a tool some run without failures spends any amount: its agents are deleted and replaced. */
  lemma ToolHasNoBound(c: Config, w: Watch, cap: real, at: int, x: real)
    requires GoodConfig(c) && w.limit > 0.0 && cap > 0.0 && w.window == c.start(w.period, at) && w.scope.WholeTool?
    ensures !AlwaysSpendsLess(c, w, cap, x)
  {
    TimesNotNegative(Unsettled(c), cap);
    var steps := OvershootingRun(c, w, cap, if x > 0.0 then x else 0.0, at, 0.0);
    assert GuardedRun(c, w, cap, at, steps);
  }

  /** The limit itself holds, for an agent or a tool, exactly when calls cost nothing. */
  lemma LimitHoldsIff(c: Config, w: Watch, cap: real, at: int)
    requires GoodConfig(c) && w.limit > 0.0 && cap >= 0.0 && w.window == c.start(w.period, at)
    ensures AlwaysSpendsLess(c, w, cap, w.limit) <==> cap == 0.0
    ensures SpendsLess(c, w, cap, 0.0, w.limit) <==> cap == 0.0
  {
    if cap > 0.0 {
      EnoughUnsettled(c);
      TimesUp(1, Unsettled(c), cap);
      assert Times(1, cap) == cap;
      var steps := OvershootingRun(c, w, cap, 0.0, at, if w.limit > cap then w.limit - cap else 0.0);
      assert ForgettingRun(c, w, cap, 0.0, at, steps) && GuardedRun(c, w, cap, at, steps);
    } else {
      forall now, steps | GuardedRun(c, w, cap, now, steps)
        ensures SpentIn(c, w, After(c, Init(c, now), steps)) < w.limit
      {
        FreeCalls(c, w, now, steps);
      }
    }
  }
}
