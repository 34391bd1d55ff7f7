/**
How far spending can run past a limit.  A budget check sees only what is stored, so calls that
are under way, buffered or being stored are not counted; this module bounds what they add, over
every run of the protocol.
*/
module Overshoot {
  import opened Common
  import opened Metering
  import opened Budget
  import opened Protocol
  import opened InFlight

  /** A limit on what a scope may spend in the day or month that starts at `window`. */
  datatype Watch = Watch(scope: Scope, period: Period, window: int, limit: real)

  /** What a transaction adds to the spending under watch. */
  function WindowCost(c: Config, w: Watch): Transaction -> real {
    (tx: Transaction) =>
      if Covers(w.scope, tx) && c.start(w.period, tx.timestamp) == w.window then tx.call.cost else 0.0
  }

  predicate OnScope(w: Watch, req: Req) {
    match w.scope
    case AgentTool(a, t) => req == Req(a, t)
    case WholeTool(t) => req.toolID == t
  }

  /** The thread is past the check of the watch, and its call has no cost yet. */
  predicate Committed(w: Watch, pc: PC) {
    match pc
    case GotDaily(req, _, limits, daily) =>
      w.scope.AgentTool? && OnScope(w, req) && w.period.Day? && 0.0 < limits.daily <= w.limit && daily < limits.daily
    case AgentPassed(req) => w.scope.AgentTool? && OnScope(w, req)
    case GotTool(req, _, _, _) => w.scope.AgentTool? && OnScope(w, req)
    case Forwarding(req) => OnScope(w, req)
    case _ => false
  }

  /** What a thread may still add to the spending under watch, calls costing at most `cap`. */
  function Weight(c: Config, w: Watch, cap: real, now: int): PC -> real {
    (pc: PC) =>
      if pc.Stamped? then WindowCost(c, w)(pc.tx)
      else if Committed(w, pc) && c.start(w.period, now) <= w.window then cap
      else 0.0
  }

  /** What was spent in the window, with what threads may still add. */
  function Exposure(c: Config, w: Watch, cap: real, s: State): real {
    Weigh(s.recorded, WindowCost(c, w)) + Sum(s.threads, Weight(c, w, cap, s.now))
  }

  /** A request let through during the window by a check that failed, or compared with no limit or a larger one. */
  predicate Unguarded(c: Config, w: Watch, p: Pass) {
    && p.scope == w.scope && p.period == w.period && c.start(p.period, p.at) == w.window
    && !(p.under.Some? && p.under.value <= w.limit)
  }

  function UnguardedIn(c: Config, w: Watch, passes: seq<Pass>): nat {
    if passes == [] then 0
    else UnguardedIn(c, w, passes[..|passes| - 1]) + if Unguarded(c, w, passes[|passes| - 1]) then 1 else 0
  }

  lemma {:induction false} UnguardedAppend(c: Config, w: Watch, a: seq<Pass>, b: seq<Pass>)
    ensures UnguardedIn(c, w, a + b) == UnguardedIn(c, w, a) + UnguardedIn(c, w, b)
  {
    if b == [] {
      assert a + b == a;
    } else {
      UnguardedAppend(c, w, a, b[..|b| - 1]);
      assert (a + b)[..|a + b| - 1] == a + b[..|b| - 1];
    }
  }

  // ---------------------------------------------------------------- prices

  predicate Priced(tx: Transaction, cap: real) {
    0.0 <= tx.call.cost <= cap
  }

  predicate AllPriced(txs: seq<Transaction>, cap: real) {
    forall i :: 0 <= i < |txs| ==> Priced(txs[i], cap)
  }

  ghost predicate Capped(s: State, cap: real) {
    && AllPriced(s.recorded, cap)
    && AllPriced(s.buffer, cap)
    && (forall k :: 0 <= k < |s.batches| ==> AllPriced(s.batches[k], cap))
    && (forall i :: 0 <= i < |s.threads| && s.threads[i].Stamped? ==> Priced(s.threads[i].tx, cap))
  }

  predicate PricedStep(st: Step, cap: real) {
    st.Stamp? ==> 0.0 <= st.call.cost <= cap
  }

  lemma StepKeepsCapped(c: Config, s: State, st: Step, cap: real)
    requires Inv(c, s) && Enabled(c, s, st) && Capped(s, cap) && PricedStep(st, cap)
    ensures Capped(Next(c, s, st), cap)
  {
    if !st.Advance? && !st.Append? && !st.Drain? && !st.Insert? && !st.Delete? {
      var i, pc, passed := OtherSteps(c, s, st);
    }
  }

  lemma {:induction false} GatherPriced(batches: seq<seq<Transaction>>, ks: seq<nat>, cap: real)
    requires forall k :: 0 <= k < |batches| ==> AllPriced(batches[k], cap)
    ensures AllPriced(Gather(batches, ks), cap)
  {
    if ks != [] { GatherPriced(batches, ks[..|ks| - 1], cap); }
  }

  lemma {:induction false} FilterPriced(txs: seq<Transaction>, p: Transaction -> bool, cap: real)
    requires AllPriced(txs, cap)
    ensures AllPriced(Filter(p, txs), cap)
  {
    if txs != [] { FilterPriced(txs[1..], p, cap); }
  }

  lemma WindowCostWithin(c: Config, w: Watch, txs: seq<Transaction>, cap: real)
    requires AllPriced(txs, cap) && cap >= 0.0
    ensures 0.0 <= Weigh(txs, WindowCost(c, w)) <= Times(|txs|, cap)
  {
    WeighWithin(txs, WindowCost(c, w), cap);
  }

  // ---------------------------------------------------------------- what was spent, and what of it is not stored

  function SpentIn(c: Config, w: Watch, s: State): real {
    Weigh(s.recorded, WindowCost(c, w))
  }

  function LostIn(c: Config, w: Watch, s: State): real {
    Weigh(Lost(s), WindowCost(c, w))
  }

  /** What was stored of the spending in the window, and then deleted with its agent or tool. */
  function ForgottenIn(c: Config, w: Watch, s: State): real {
    Weigh(Forgotten(s), WindowCost(c, w))
  }

  /** What no check will see: lost by a failed insert, or deleted. */
  function VanishedIn(c: Config, w: Watch, s: State): real {
    LostIn(c, w, s) + ForgottenIn(c, w, s)
  }

  function PendingCap(cap: real): PC -> real {
    (pc: PC) => if pc.PendingFlush? then cap else 0.0
  }

  lemma {:induction false} PendingCapSum(ts: seq<PC>, cap: real)
    ensures Sum(ts, PendingCap(cap)) == Times(Count(ts, IsPending()), cap)
  {
    if ts != [] { PendingCapSum(ts[1..], cap); }
  }

  /** What one thread may still add, or its place in an overfull buffer. */
  function Place(c: Config, w: Watch, cap: real, s: State): PC -> real {
    (pc: PC) => Weight(c, w, cap, s.now)(pc) + PendingCap(cap)(pc)
  }

  lemma PlaceOfOne(c: Config, w: Watch, cap: real, s: State, i: nat)
    requires Capped(s, cap) && cap >= 0.0 && i < |s.threads|
    ensures Place(c, w, cap, s)(s.threads[i]) <= cap
    ensures s.threads[i].Inserting? || s.threads[i].Idle? ==> Place(c, w, cap, s)(s.threads[i]) == 0.0
  {
    var pc := s.threads[i];
    var weight, pending := Weight(c, w, cap, s.now)(pc), PendingCap(cap)(pc);
    assert Place(c, w, cap, s)(pc) == weight + pending;
    if pc.Inserting? || pc.Idle? {
      assert !Committed(w, pc);
      assert weight == 0.0 && pending == 0.0;
    } else if pc.PendingFlush? {
      assert !Committed(w, pc);
      assert weight == 0.0 && pending == cap;
    } else if pc.Stamped? {
      assert Priced(pc.tx, cap);
      assert weight == WindowCost(c, w)(pc.tx) <= cap && pending == 0.0;
    } else {
      PlainWeight(c, w, cap, s.now, pc);
    }
  }

  lemma {:induction false} SumOfRest(ts: seq<PC>, g: PC -> real, p: PC -> bool, cap: real)
    requires forall i :: 0 <= i < |ts| ==> g(ts[i]) <= if p(ts[i]) then 0.0 else cap
    ensures Count(ts, p) <= |ts| && Sum(ts, g) <= Times(|ts| - Count(ts, p), cap)
  {
    CountAtMost(ts, p);
    if ts != [] {
      SumOfRest(ts[1..], g, p, cap);
      CountAtMost(ts[1..], p);
    }
  }

  /** Request threads that are not storing a batch account for one call each. */
  lemma PlacesOfAll(c: Config, w: Watch, cap: real, s: State)
    requires GoodConfig(c) && Inv(c, s) && Capped(s, cap) && cap >= 0.0
    ensures var j := Count(Servers(c, s), StoringBefore(|s.batches|));
            j <= c.requests &&
            Sum(s.threads, Weight(c, w, cap, s.now)) + Times(Pending(s), cap) <= Times(c.requests - j, cap)
  {
    var ts := Servers(c, s);
    forall i | 0 <= i < |ts|
      ensures Place(c, w, cap, s)(ts[i]) <= if StoringBefore(|s.batches|)(ts[i]) then 0.0 else cap
    {
      PlaceOfOne(c, w, cap, s, i);
    }
    SumOfRest(ts, Place(c, w, cap, s), StoringBefore(|s.batches|), cap);
    PlaceOfOne(c, w, cap, s, c.requests);
    SumFront(s.threads, Place(c, w, cap, s));
    SumPlus(s.threads, Weight(c, w, cap, s.now), PendingCap(cap), Place(c, w, cap, s));
    PendingCapSum(s.threads, cap);
  }

  lemma {:induction false} CountFull(ts: seq<PC>, p: PC -> bool)
    requires Count(ts, p) == |ts|
    ensures forall i :: 0 <= i < |ts| ==> p(ts[i])
  {
    if ts != [] {
      CountAtMost(ts[1..], p);
      CountFull(ts[1..], p);
    }
  }

  /** The buffer holds less than a batch and one call of every thread yet to flush; nothing once all threads store. */
  lemma BufferCost(c: Config, w: Watch, cap: real, s: State)
    requires GoodConfig(c) && Inv(c, s) && Capped(s, cap) && cap >= 0.0 && Ranked(c, s)
    ensures Weigh(s.buffer, WindowCost(c, w)) <= Times(c.batchSize - 1, cap) + Times(Pending(s), cap)
    ensures Count(Servers(c, s), StoringBefore(|s.batches|)) == c.requests ==> Weigh(s.buffer, WindowCost(c, w)) == 0.0
  {
    WindowCostWithin(c, w, s.buffer, cap);
    TimesUp(|s.buffer|, c.batchSize - 1 + Pending(s), cap);
    TimesPlus(c.batchSize - 1, Pending(s), cap);
    if Count(Servers(c, s), StoringBefore(|s.batches|)) == c.requests {
      CountFull(Servers(c, s), StoringBefore(|s.batches|));
      forall i | 0 <= i < c.requests ensures s.threads[i].Inserting? {
        assert StoringBefore(|s.batches|)(Servers(c, s)[i]);
      }
    }
  }

  /** A buffer below a batch and `free` more calls take no more room than one more thread storing. */
  lemma RoomForRest(c: Config, j: nat, cap: real)
    requires GoodConfig(c) && j <= c.requests && cap >= 0.0
    ensures j < c.requests ==>
              Times(Room(c, j) + Largest(c), cap) + Times(c.batchSize - 1, cap) + Times(c.requests - j, cap)
                <= Times(Unsettled(c), cap)
    ensures Times(Room(c, j) + Largest(c), cap) <= Times(Unsettled(c), cap)
  {
    RoomUp(c, j, c.requests);
    TimesUp(Room(c, j) + Largest(c), Unsettled(c), cap);
    if j < c.requests {
      TimesPlus(c.batchSize - 1, c.requests - j, cap);
      TimesPlus(Room(c, j) + Largest(c), Largest(c) - j, cap);
      RoomUp(c, j + 1, c.requests);
      TimesUp(Room(c, j + 1) + Largest(c), Unsettled(c), cap);
    }
  }

  lemma BatchesWeighted(c: Config, w: Watch, cap: real, s: State)
    requires Capped(s, cap) && cap >= 0.0
    ensures Weighted(s, WindowCost(c, w), cap)
  {
    forall k | 0 <= k < |s.batches|
      ensures 0.0 <= Weigh(s.batches[k], WindowCost(c, w)) <= Times(|s.batches[k]|, cap)
    {
      WindowCostWithin(c, w, s.batches[k], cap);
    }
  }

  lemma UnsettledCost(c: Config, w: Watch, cap: real, s: State)
    requires GoodConfig(c) && Inv(c, s) && Capped(s, cap) && cap >= 0.0 && Ranked(c, s) && EachOnce(s)
    ensures Weigh(s.buffer, WindowCost(c, w)) + Sum(s.threads, Held(s.batches, WindowCost(c, w)))
              + Sum(s.threads, Weight(c, w, cap, s.now)) <= Times(Unsettled(c), cap)
  {
    var j := Count(Servers(c, s), StoringBefore(|s.batches|));
    BatchesWeighted(c, w, cap, s);
    HeldByAll(c, s, WindowCost(c, w), cap);
    PlacesOfAll(c, w, cap, s);
    BufferCost(c, w, cap, s);
    RoomForRest(c, j, cap);
    TimesNotNegative(Pending(s), cap);
  }

  /**
  When the stored spending is under the limit, the exposure exceeds it by the unsettled calls at most,
  leaving out what was lost and what was deleted.
  */
  lemma Settled(c: Config, w: Watch, cap: real, s: State)
    requires GoodConfig(c) && Inv(c, s) && Ranked(c, s) && EachOnce(s)
    requires Capped(s, cap) && cap >= 0.0 && Balanced(s, WindowCost(c, w))
    requires Weigh(Store(s), WindowCost(c, w)) < w.limit
    ensures Exposure(c, w, cap, s) - VanishedIn(c, w, s) < w.limit + Times(Unsettled(c), cap)
  {
    UnsettledCost(c, w, cap, s);
    StoredOrForgotten(s, WindowCost(c, w));
  }

  // ---------------------------------------------------------------- one step at a time

  /** The calls the bound allows for: the unsettled ones, and those let through unguarded in the window. */
  function Allowance(c: Config, w: Watch, s: State): nat
    requires c.batchSize >= 1
  {
    Unsettled(c) + UnguardedIn(c, w, s.passes)
  }

  /** While or after the window is open, the exposure that was neither lost nor deleted stays within the bound. */
  predicate Bounded(c: Config, w: Watch, cap: real, s: State)
    requires c.batchSize >= 1
  {
    c.start(w.period, s.now) >= w.window ==>
      Exposure(c, w, cap, s) - VanishedIn(c, w, s) < w.limit + Times(Allowance(c, w, s), cap)
  }

  ghost predicate Good(c: Config, w: Watch, cap: real, s: State) {
    && GoodConfig(c) && Inv(c, s) && Ranked(c, s) && EachOnce(s)
    && Capped(s, cap) && Balanced(s, WindowCost(c, w)) && w.limit > 0.0 && cap >= 0.0
  }

  lemma VanishedIsPriced(c: Config, w: Watch, cap: real, s: State)
    requires Good(c, w, cap, s)
    ensures 0.0 <= LostIn(c, w, s) && 0.0 <= ForgottenIn(c, w, s)
  {
    GatherPriced(s.batches, s.dropped, cap);
    WindowCostWithin(c, w, Lost(s), cap);
    GatherPriced(s.batches, s.inserted, cap);
    FilterPriced(Inserted(s), Dropped(s.gone), cap);
    WindowCostWithin(c, w, Forgotten(s), cap);
  }

  /** Nothing made before the window opens costs anything in it. */
  lemma BeforeWindow(c: Config, w: Watch, cap: real, s: State)
    requires Good(c, w, cap, s) && c.start(w.period, s.now) < w.window
    ensures SpentIn(c, w, s) <= 0.0
  {
    forall i | 0 <= i < |s.recorded| ensures WindowCost(c, w)(s.recorded[i]) == 0.0 {
      assert c.start(w.period, s.recorded[i].timestamp) <= c.start(w.period, s.now);
    }
    WeighOrder(s.recorded, WindowCost(c, w), (tx: Transaction) => 0.0);
    WeighNothing(s.recorded);
  }

  lemma WeightsAtMost(c: Config, w: Watch, cap: real, s: State, now: int)
    requires Good(c, w, cap, s)
    ensures Sum(s.threads, Weight(c, w, cap, now)) <= Times(c.requests + 1, cap)
  {
    forall i | 0 <= i < |s.threads| ensures Weight(c, w, cap, now)(s.threads[i]) <= cap {
      assert s.threads[i].Stamped? ==> Priced(s.threads[i].tx, cap);
    }
    SumWithin(s.threads, Weight(c, w, cap, now), cap);
  }

  lemma OpensBelow(spent: real, weights: real, vanished: real, limit: real, threads: real, allowed: real)
    requires spent <= 0.0 && weights <= threads <= allowed && vanished >= 0.0 && limit > 0.0
    ensures spent + weights - vanished < limit + allowed
  {
  }

  lemma OpenBounded(c: Config, w: Watch, cap: real, s: State)
    requires GoodConfig(c) && w.limit > 0.0 && cap >= 0.0 && SpentIn(c, w, s) <= 0.0 && VanishedIn(c, w, s) >= 0.0
    requires Sum(s.threads, Weight(c, w, cap, s.now)) <= Times(c.requests + 1, cap)
    ensures Bounded(c, w, cap, s)
  {
    EnoughUnsettled(c);
    TimesUp(c.requests + 1, Allowance(c, w, s), cap);
    OpensBelow(SpentIn(c, w, s), Sum(s.threads, Weight(c, w, cap, s.now)), VanishedIn(c, w, s), w.limit,
               Times(c.requests + 1, cap), Times(Allowance(c, w, s), cap));
  }

  /** At the moment the window opens nothing is spent in it, and every thread may add one call. */
  lemma OpensBounded(c: Config, w: Watch, cap: real, s: State, t: State)
    requires Good(c, w, cap, s) && c.start(w.period, s.now) < w.window && t == s.(now := t.now)
    ensures Bounded(c, w, cap, t)
  {
    VanishedIsPriced(c, w, cap, s);
    BeforeWindow(c, w, cap, s);
    WeightsAtMost(c, w, cap, s, t.now);
    OpenBounded(c, w, cap, t);
  }

  /** As the clock goes on, threads that were let through can add less to the window. */
  lemma WeightsFall(c: Config, w: Watch, cap: real, s: State, now: int)
    requires GoodConfig(c) && cap >= 0.0 && s.now <= now
    ensures Sum(s.threads, Weight(c, w, cap, now)) <= Sum(s.threads, Weight(c, w, cap, s.now))
  {
    assert c.start(w.period, s.now) <= c.start(w.period, now);
    forall i | 0 <= i < |s.threads|
      ensures Weight(c, w, cap, now)(s.threads[i]) <= Weight(c, w, cap, s.now)(s.threads[i])
    {
      if !s.threads[i].Stamped? {
        PlainWeight(c, w, cap, now, s.threads[i]);
        PlainWeight(c, w, cap, s.now, s.threads[i]);
      }
    }
    SumOrder(s.threads, Weight(c, w, cap, now), Weight(c, w, cap, s.now));
  }

  lemma LaterExposure(c: Config, w: Watch, cap: real, s: State, now: int)
    requires GoodConfig(c) && cap >= 0.0 && s.now <= now
    ensures Exposure(c, w, cap, s.(now := now)) <= Exposure(c, w, cap, s)
  {
    WeightsFall(c, w, cap, s, now);
  }

  /** Less exposure, or more of it vanished, with as many calls allowed for. */
  lemma LessKeepsBounded(c: Config, w: Watch, cap: real, s: State, t: State)
    requires c.batchSize >= 1 && Bounded(c, w, cap, s) && c.start(w.period, s.now) >= w.window
    requires Exposure(c, w, cap, t) <= Exposure(c, w, cap, s) && VanishedIn(c, w, s) <= VanishedIn(c, w, t)
    requires Allowance(c, w, t) == Allowance(c, w, s)
    ensures Bounded(c, w, cap, t)
  {
  }

  lemma LaterBounded(c: Config, w: Watch, cap: real, s: State, t: State)
    requires GoodConfig(c) && cap >= 0.0 && s.now <= t.now && t == s.(now := t.now)
    requires Bounded(c, w, cap, s) && c.start(w.period, s.now) >= w.window
    ensures Bounded(c, w, cap, t)
  {
    LaterExposure(c, w, cap, s, t.now);
    LessKeepsBounded(c, w, cap, s, t);
  }

  lemma AdvanceKeepsBounded(c: Config, w: Watch, cap: real, s: State, t: State)
    requires Good(c, w, cap, s) && Bounded(c, w, cap, s) && s.now <= t.now && t == s.(now := t.now)
    ensures Bounded(c, w, cap, t)
  {
    if c.start(w.period, s.now) >= w.window {
      LaterBounded(c, w, cap, s, t);
    } else {
      OpensBounded(c, w, cap, s, t);
    }
  }

  lemma EnoughUnsettled(c: Config)
    requires GoodConfig(c)
    ensures c.requests + 1 <= Unsettled(c)
  {
    RoomIs(c, c.requests);
  }

  /** What the check of the watch read covers the whole window, so a pass under the limit leaves the store under it. */
  lemma ReadCovers(c: Config, w: Watch, cap: real, s: State, at: int)
    requires Good(c, w, cap, s) && at <= s.now && c.start(w.period, s.now) <= w.window
    ensures Weigh(Store(s), WindowCost(c, w)) <= SpentSince(Store(s), w.scope, c.start(w.period, at))
  {
    GatherPriced(s.batches, s.inserted, cap);
    FilterPriced(Inserted(s), Kept(s.gone), cap);
    assert c.start(w.period, at) <= c.start(w.period, s.now);
    forall i | 0 <= i < |Store(s)|
      ensures WindowCost(c, w)(Store(s)[i]) <= CostSince(w.scope, c.start(w.period, at))(Store(s)[i])
    {
      var tx := Store(s)[i];
      assert Priced(tx, cap);
      assert c.start(w.period, tx.timestamp) <= tx.timestamp;
    }
    WeighOrder(Store(s), WindowCost(c, w), CostSince(w.scope, c.start(w.period, at)));
  }

  lemma TwoPasses(c: Config, w: Watch, a: Pass, b: Pass)
    ensures Unguarded(c, w, a) || Unguarded(c, w, b) ==> UnguardedIn(c, w, [a, b]) >= 1
  {
    assert [a, b][..1] == [a];
    assert UnguardedIn(c, w, [a, b]) == UnguardedIn(c, w, [a]) + if Unguarded(c, w, b) then 1 else 0;
    assert UnguardedIn(c, w, [a]) == UnguardedIn(c, w, []) + if Unguarded(c, w, a) then 1 else 0;
  }

  /** A thread that becomes committed either read spending under the limit, or was let through unguarded. */
  ghost predicate Explained(c: Config, w: Watch, s: State, st: Step)
    requires Enabled(c, s, st) && (st.ReadBudget? || st.ReadDaily? || st.ReadMonthly? || st.ReadTool? || st.ReadTotal?)
  {
    !Committed(w, s.threads[st.i]) && Committed(w, CheckStep(c, s, st).0) ==>
      UnguardedIn(c, w, CheckStep(c, s, st).1) >= 1 || Weigh(Store(s), WindowCost(c, w)) < w.limit
  }

  lemma TwoPassesOf(c: Config, w: Watch, passed: seq<Pass>)
    ensures |passed| == 2 && (Unguarded(c, w, passed[0]) || Unguarded(c, w, passed[1])) ==>
              UnguardedIn(c, w, passed) >= 1
  {
    if |passed| == 2 {
      assert passed == [passed[0], passed[1]];
      TwoPasses(c, w, passed[0], passed[1]);
    }
  }

  lemma BudgetReadExplained(c: Config, w: Watch, cap: real, s: State, i: nat, req: Req, row: Option<Limits>)
    requires Good(c, w, cap, s) && Enabled(c, s, ReadBudget(i, req, row)) && c.start(w.period, s.now) == w.window
    ensures Explained(c, w, s, ReadBudget(i, req, row))
  {
    TwoPassesOf(c, w, CheckStep(c, s, ReadBudget(i, req, row)).1);
  }

  lemma DailyReadExplained(c: Config, w: Watch, cap: real, s: State, i: nat, ok: bool)
    requires Good(c, w, cap, s) && Enabled(c, s, ReadDaily(i, ok)) && c.start(w.period, s.now) == w.window
    ensures Explained(c, w, s, ReadDaily(i, ok))
  {
    TwoPassesOf(c, w, CheckStep(c, s, ReadDaily(i, ok)).1);
    if ok && w.period.Day? {
      assert Timely(s.now, s.threads[i]);
      ReadCovers(c, w, cap, s, s.threads[i].at);
    }
  }

  lemma MonthlyReadExplained(c: Config, w: Watch, cap: real, s: State, i: nat, ok: bool)
    requires Good(c, w, cap, s) && Enabled(c, s, ReadMonthly(i, ok)) && c.start(w.period, s.now) == w.window
    ensures Explained(c, w, s, ReadMonthly(i, ok))
  {
    var pc := s.threads[i];
    TwoPassesOf(c, w, CheckStep(c, s, ReadMonthly(i, ok)).1);
    if w.period.Month? {
      assert Timely(s.now, pc);
      ReadCovers(c, w, cap, s, pc.at);
    }
  }

  lemma ToolReadExplained(c: Config, w: Watch, cap: real, s: State, i: nat, tool: Option<ToolLimit>)
    requires Good(c, w, cap, s) && Enabled(c, s, ReadTool(i, tool)) && c.start(w.period, s.now) == w.window
    ensures Explained(c, w, s, ReadTool(i, tool))
  {
    TwoPassesOf(c, w, CheckStep(c, s, ReadTool(i, tool)).1);
  }

  lemma TotalReadExplained(c: Config, w: Watch, cap: real, s: State, i: nat, ok: bool)
    requires Good(c, w, cap, s) && Enabled(c, s, ReadTotal(i, ok)) && c.start(w.period, s.now) == w.window
    ensures Explained(c, w, s, ReadTotal(i, ok))
  {
    var pc := s.threads[i];
    TwoPassesOf(c, w, CheckStep(c, s, ReadTotal(i, ok)).1);
    if pc.period == w.period {
      assert Timely(s.now, pc);
      ReadCovers(c, w, cap, s, pc.at);
    }
  }

  lemma ChecksExplained(c: Config, w: Watch, cap: real, s: State, st: Step)
    requires Good(c, w, cap, s) && Enabled(c, s, st) && c.start(w.period, s.now) == w.window
    requires st.ReadBudget? || st.ReadDaily? || st.ReadMonthly? || st.ReadTool? || st.ReadTotal?
    ensures Explained(c, w, s, st)
  {
    if st.ReadBudget? {
      BudgetReadExplained(c, w, cap, s, st.i, st.req, st.row);
    } else if st.ReadDaily? {
      DailyReadExplained(c, w, cap, s, st.i, st.ok);
    } else if st.ReadMonthly? {
      MonthlyReadExplained(c, w, cap, s, st.i, st.ok);
    } else if st.ReadTool? {
      ToolReadExplained(c, w, cap, s, st.i, st.tool);
    } else {
      TotalReadExplained(c, w, cap, s, st.i, st.ok);
    }
  }

  lemma StepKeepsGood(c: Config, w: Watch, cap: real, s: State, st: Step)
    requires Good(c, w, cap, s) && Enabled(c, s, st) && PricedStep(st, cap)
    ensures Good(c, w, cap, Next(c, s, st))
  {
    StepKeepsInv(c, s, st);
    StepKeepsRanked(c, s, st);
    StepKeepsEachOnce(c, s, st);
    StepKeepsCapped(c, s, st, cap);
    StepKeepsBalance(c, s, st, WindowCost(c, w));
  }

  lemma OneMoreTimes(n: nat, m: nat, cap: real)
    requires m >= n && cap >= 0.0
    ensures Times(n, cap) <= Times(m, cap)
    ensures m >= n + 1 ==> Times(n, cap) + cap <= Times(m, cap)
  {
    TimesUp(n, m, cap);
    if m >= n + 1 { TimesUp(n + 1, m, cap); }
  }

  lemma PlainWeight(c: Config, w: Watch, cap: real, now: int, pc: PC)
    requires !pc.Stamped?
    ensures Weight(c, w, cap, now)(pc) == if Committed(w, pc) && c.start(w.period, now) <= w.window then cap else 0.0
  {
  }

  /** How a move of one thread changes the exposure. */
  lemma MoveExposure(c: Config, w: Watch, cap: real, s: State, i: nat, pc: PC, passed: seq<Pass>)
    requires i < |s.threads|
    ensures Exposure(c, w, cap, Move(s, i, pc, passed))
              == Exposure(c, w, cap, s) - Weight(c, w, cap, s.now)(s.threads[i]) + Weight(c, w, cap, s.now)(pc)
    ensures VanishedIn(c, w, Move(s, i, pc, passed)) == VanishedIn(c, w, s)
    ensures c.batchSize >= 1 ==>
              Allowance(c, w, Move(s, i, pc, passed)) == Allowance(c, w, s) + UnguardedIn(c, w, passed)
  {
    SumUpdate(s.threads, i, pc, Weight(c, w, cap, s.now));
    UnguardedAppend(c, w, s.passes, passed);
  }

  lemma StillBelow(e: real, e': real, lost: real, limit: real, allowed: real, allowed': real)
    requires e - lost < limit + allowed && e' - e <= allowed' - allowed
    ensures e' - lost < limit + allowed'
  {
  }

  /** A move within the bound: the weight does not grow, or it grows by a call let through unguarded. */
  lemma MoveKeepsBounded(c: Config, w: Watch, cap: real, s: State, i: nat, pc: PC, passed: seq<Pass>)
    requires c.batchSize >= 1 && cap >= 0.0 && i < |s.threads| && Bounded(c, w, cap, s)
    requires c.start(w.period, s.now) >= w.window ==>
               Weight(c, w, cap, s.now)(pc)
                 <= Weight(c, w, cap, s.now)(s.threads[i]) + if UnguardedIn(c, w, passed) >= 1 then cap else 0.0
    ensures Bounded(c, w, cap, Move(s, i, pc, passed))
  {
    var t := Move(s, i, pc, passed);
    MoveExposure(c, w, cap, s, i, pc, passed);
    OneMoreTimes(Allowance(c, w, s), Allowance(c, w, t), cap);
    if c.start(w.period, s.now) >= w.window {
      StillBelow(Exposure(c, w, cap, s), Exposure(c, w, cap, t), VanishedIn(c, w, s), w.limit,
                 Times(Allowance(c, w, s), cap), Times(Allowance(c, w, t), cap));
    }
  }

  lemma SettledIsBounded(c: Config, w: Watch, cap: real, s: State)
    requires Good(c, w, cap, s) && Weigh(Store(s), WindowCost(c, w)) < w.limit
    ensures Bounded(c, w, cap, s)
  {
    Settled(c, w, cap, s);
    OneMoreTimes(Unsettled(c), Allowance(c, w, s), cap);
  }

  /** A check that does not find room under the limit adds no weight, unless it let the request through unguarded. */
  lemma CheckWeight(c: Config, w: Watch, cap: real, s: State, st: Step)
    requires Good(c, w, cap, s) && Enabled(c, s, st) && Weigh(Store(s), WindowCost(c, w)) >= w.limit
    requires st.ReadBudget? || st.ReadDaily? || st.ReadMonthly? || st.ReadTool? || st.ReadTotal?
    requires c.start(w.period, s.now) >= w.window
    ensures Weight(c, w, cap, s.now)(CheckStep(c, s, st).0)
              <= Weight(c, w, cap, s.now)(s.threads[st.i]) +
                 if UnguardedIn(c, w, CheckStep(c, s, st).1) >= 1 then cap else 0.0
  {
    PlainWeight(c, w, cap, s.now, s.threads[st.i]);
    PlainWeight(c, w, cap, s.now, CheckStep(c, s, st).0);
    if c.start(w.period, s.now) == w.window { ChecksExplained(c, w, cap, s, st); }
  }

  lemma CheckKeepsBounded(c: Config, w: Watch, cap: real, s: State, st: Step)
    requires Good(c, w, cap, s) && Enabled(c, s, st) && Bounded(c, w, cap, s) && Good(c, w, cap, Next(c, s, st))
    requires st.ReadBudget? || st.ReadDaily? || st.ReadMonthly? || st.ReadTool? || st.ReadTotal?
    ensures Bounded(c, w, cap, Next(c, s, st))
  {
    if Weigh(Store(s), WindowCost(c, w)) < w.limit {
      SettledIsBounded(c, w, cap, Next(c, s, st));
    } else {
      if c.start(w.period, s.now) >= w.window { CheckWeight(c, w, cap, s, st); }
      MoveKeepsBounded(c, w, cap, s, st.i, CheckStep(c, s, st).0, CheckStep(c, s, st).1);
    }
  }

  /** A call that ends without an answer costs nothing. */
  lemma AbandonKeepsBounded(c: Config, w: Watch, cap: real, s: State, i: nat)
    requires c.batchSize >= 1 && cap >= 0.0 && Enabled(c, s, Abandon(i)) && Bounded(c, w, cap, s)
    ensures Bounded(c, w, cap, Next(c, s, Abandon(i)))
  {
    PlainWeight(c, w, cap, s.now, s.threads[i]);
    PlainWeight(c, w, cap, s.now, Idle);
    MoveKeepsBounded(c, w, cap, s, i, Idle, []);
  }

  /** A call that is answered costs no more than was allowed for it. */
  lemma StampKeepsBounded(c: Config, w: Watch, cap: real, s: State, i: nat, call: Call)
    requires c.batchSize >= 1 && 0.0 <= call.cost <= cap && Enabled(c, s, Stamp(i, call)) && Bounded(c, w, cap, s)
    ensures Bounded(c, w, cap, Next(c, s, Stamp(i, call)))
  {
    var tx := Transaction(s.now, call);
    PlainWeight(c, w, cap, s.now, s.threads[i]);
    assert Weight(c, w, cap, s.now)(Stamped(tx)) == WindowCost(c, w)(tx);
    MoveKeepsBounded(c, w, cap, s, i, Stamped(tx), []);
  }

  lemma AppendKeepsBounded(c: Config, w: Watch, cap: real, s: State, i: nat)
    requires c.batchSize >= 1 && Enabled(c, s, Append(i)) && Bounded(c, w, cap, s)
    ensures Bounded(c, w, cap, Next(c, s, Append(i)))
  {
    var tx, next := s.threads[i].tx, Next(c, s, Append(i)).threads[i];
    SumUpdate(s.threads, i, next, Weight(c, w, cap, s.now));
    PlainWeight(c, w, cap, s.now, next);
    WeighAppend(s.recorded, [tx], WindowCost(c, w));
    WeighOne(tx, WindowCost(c, w));
    assert Weight(c, w, cap, s.now)(s.threads[i]) == WindowCost(c, w)(tx);
  }

  lemma FlushExposure(c: Config, w: Watch, cap: real, s: State, st: Step)
    requires Enabled(c, s, st) && (st.Drain? || st.Insert?)
    ensures Exposure(c, w, cap, Next(c, s, st)) == Exposure(c, w, cap, s)
    ensures c.batchSize >= 1 ==> Allowance(c, w, Next(c, s, st)) == Allowance(c, w, s)
  {
    var t, pc := Next(c, s, st), s.threads[st.i];
    SumUpdate(s.threads, st.i, t.threads[st.i], Weight(c, w, cap, s.now));
    PlainWeight(c, w, cap, s.now, pc);
    PlainWeight(c, w, cap, s.now, t.threads[st.i]);
  }

  lemma LessLeftKeepsBounded(c: Config, w: Watch, cap: real, s: State, t: State)
    requires c.batchSize >= 1 && Bounded(c, w, cap, s) && t.now == s.now
    requires Exposure(c, w, cap, t) == Exposure(c, w, cap, s) && VanishedIn(c, w, s) <= VanishedIn(c, w, t)
    requires Allowance(c, w, t) == Allowance(c, w, s)
    ensures Bounded(c, w, cap, t)
  {
  }

  /** Draining and storing move no weight; losing a batch only takes from the exposure that counts. */
  lemma FlushKeepsBounded(c: Config, w: Watch, cap: real, s: State, st: Step)
    requires Good(c, w, cap, s) && Enabled(c, s, st) && Bounded(c, w, cap, s)
    requires st.Drain? || st.Insert?
    ensures Bounded(c, w, cap, Next(c, s, st))
  {
    FlushExposure(c, w, cap, s, st);
    LostOnlyGrows(c, w, cap, s, st);
    ForgottenStays(c, w, s, st);
    LessLeftKeepsBounded(c, w, cap, s, Next(c, s, st));
  }

  lemma LostOnlyGrows(c: Config, w: Watch, cap: real, s: State, st: Step)
    requires Good(c, w, cap, s) && Enabled(c, s, st)
    requires st.Drain? || st.Insert?
    ensures LostIn(c, w, s) <= LostIn(c, w, Next(c, s, st))
  {
    if st.Drain? {
      if s.buffer != [] { GatherOld(s.batches, s.buffer, s.dropped); }
    } else if !st.ok {
      GatherOne(s.batches, s.dropped, s.threads[st.i].k, WindowCost(c, w));
      WindowCostWithin(c, w, s.batches[s.threads[st.i].k], cap);
    }
  }

  /** Nothing is stored whose agent or tool is deleted already. */
  lemma ForgottenStays(c: Config, w: Watch, s: State, st: Step)
    requires Inv(c, s) && Enabled(c, s, st) && (st.Drain? || st.Insert?)
    ensures Forgotten(Next(c, s, st)) == Forgotten(s)
  {
    if st.Drain? {
      if s.buffer != [] { GatherOld(s.batches, s.buffer, s.inserted); }
    } else if st.ok {
      var k := s.threads[st.i].k;
      assert (s.inserted + [k])[..|s.inserted|] == s.inserted;
      FilterAppend(Dropped(s.gone), Inserted(s), s.batches[k]);
      FilterNone(Dropped(s.gone), s.batches[k]);
    }
  }

  lemma {:induction false} FilterMore(txs: seq<Transaction>, p: Transaction -> bool, q: Transaction -> bool,
                                      f: Transaction -> real)
    requires forall i :: 0 <= i < |txs| ==> f(txs[i]) >= 0.0 && (p(txs[i]) ==> q(txs[i]))
    ensures Weigh(Filter(p, txs), f) <= Weigh(Filter(q, txs), f)
  {
    if txs != [] {
      FilterMore(txs[1..], p, q, f);
      WeighAppend([txs[0]], Filter(p, txs[1..]), f);
      WeighAppend([txs[0]], Filter(q, txs[1..]), f);
      WeighOne(txs[0], f);
    }
  }

  /** A deletion takes stored rows from the exposure that counts. */
  lemma DeleteKeepsBounded(c: Config, w: Watch, cap: real, s: State, owner: Owner)
    requires Good(c, w, cap, s) && Bounded(c, w, cap, s)
    ensures Bounded(c, w, cap, Next(c, s, Delete(owner)))
  {
    var t := Next(c, s, Delete(owner));
    GatherPriced(s.batches, s.inserted, cap);
    forall i | 0 <= i < |Inserted(s)|
      ensures WindowCost(c, w)(Inserted(s)[i]) >= 0.0 &&
                (Dropped(s.gone)(Inserted(s)[i]) ==> Dropped(t.gone)(Inserted(s)[i]))
    {
      assert Priced(Inserted(s)[i], cap);
    }
    FilterMore(Inserted(s), Dropped(s.gone), Dropped(t.gone), WindowCost(c, w));
    LessLeftKeepsBounded(c, w, cap, s, t);
  }

  lemma {:induction false} StepKeepsBounded(c: Config, w: Watch, cap: real, s: State, st: Step)
    requires Good(c, w, cap, s) && Enabled(c, s, st) && Bounded(c, w, cap, s) && PricedStep(st, cap)
    ensures Good(c, w, cap, Next(c, s, st)) && Bounded(c, w, cap, Next(c, s, st))
  {
    StepKeepsGood(c, w, cap, s, st);
    if st.Advance? {
      AdvanceKeepsBounded(c, w, cap, s, Next(c, s, st));
    } else if st.Abandon? {
      AbandonKeepsBounded(c, w, cap, s, st.i);
    } else if st.Stamp? {
      StampKeepsBounded(c, w, cap, s, st.i, st.call);
    } else if st.Append? {
      AppendKeepsBounded(c, w, cap, s, st.i);
    } else if st.Drain? || st.Insert? {
      FlushKeepsBounded(c, w, cap, s, st);
    } else if st.Delete? {
      DeleteKeepsBounded(c, w, cap, s, st.owner);
    } else {
      CheckKeepsBounded(c, w, cap, s, st);
    }
  }

  lemma {:induction false} RunKeepsBounded(c: Config, w: Watch, cap: real, s: State, steps: seq<Step>)
    requires Runnable(c, s, steps) && Good(c, w, cap, s) && Bounded(c, w, cap, s)
    requires forall i :: 0 <= i < |steps| ==> PricedStep(steps[i], cap)
    ensures Good(c, w, cap, After(c, s, steps)) && Bounded(c, w, cap, After(c, s, steps))
    decreases |steps|
  {
    if steps != [] {
      StepKeepsBounded(c, w, cap, s, steps[0]);
      RunKeepsBounded(c, w, cap, Next(c, s, steps[0]), steps[1..]);
    }
  }

  lemma InitGood(c: Config, w: Watch, cap: real, now: int)
    requires GoodConfig(c) && w.limit > 0.0 && cap >= 0.0
    ensures Good(c, w, cap, Init(c, now))
  {
    InitInv(c, now);
    InitRanked(c, now);
    InitBalanced(c, now, WindowCost(c, w));
  }

  lemma InitBounded(c: Config, w: Watch, cap: real, now: int)
    requires c.batchSize >= 1 && w.limit > 0.0 && cap >= 0.0
    ensures Bounded(c, w, cap, Init(c, now))
  {
    var s := Init(c, now);
    NoWeight(c, w, cap, now, s.threads);
    TimesNotNegative(Allowance(c, w, s), cap);
    assert SpentIn(c, w, s) == 0.0 == VanishedIn(c, w, s);
  }

  lemma {:induction false} NoWeight(c: Config, w: Watch, cap: real, now: int, ts: seq<PC>)
    requires forall i :: 0 <= i < |ts| ==> ts[i].Idle?
    ensures Sum(ts, Weight(c, w, cap, now)) == 0.0
  {
    if ts != [] {
      PlainWeight(c, w, cap, now, ts[0]);
      NoWeight(c, w, cap, now, ts[1..]);
    }
  }

  // ---------------------------------------------------------------- the bound

  /**
  Spending in the window is below the limit, plus what was lost or deleted, plus `cap` times the calls
  allowed for.
  */
  predicate SpendingBounded(c: Config, w: Watch, cap: real, s: State)
    requires c.batchSize >= 1
  {
    SpentIn(c, w, s) < w.limit + LostIn(c, w, s) + ForgottenIn(c, w, s) + Times(Allowance(c, w, s), cap)
  }

  lemma BoundedSpending(c: Config, w: Watch, cap: real, s: State)
    requires Good(c, w, cap, s) && Bounded(c, w, cap, s)
    ensures SpendingBounded(c, w, cap, s)
  {
    TimesNotNegative(Allowance(c, w, s), cap);
    VanishedIsPriced(c, w, cap, s);
    if c.start(w.period, s.now) < w.window {
      BeforeWindow(c, w, cap, s);
    } else {
      WeightsNotNegative(c, w, cap, s);
    }
  }

  lemma WeightsNotNegative(c: Config, w: Watch, cap: real, s: State)
    requires Good(c, w, cap, s)
    ensures Sum(s.threads, Weight(c, w, cap, s.now)) >= 0.0
  {
    var none := (pc: PC) => 0.0;
    forall i | 0 <= i < |s.threads| ensures none(s.threads[i]) <= Weight(c, w, cap, s.now)(s.threads[i]) {
      assert s.threads[i].Stamped? ==> Priced(s.threads[i].tx, cap);
    }
    SumOrder(s.threads, none, Weight(c, w, cap, s.now));
    SumOfNothing(s.threads);
  }

  lemma {:induction false} SumOfNothing(ts: seq<PC>)
    ensures Sum(ts, (pc: PC) => 0.0) == 0.0
  {
    if ts != [] { SumOfNothing(ts[1..]); }
  }

  ghost predicate PricedRun(c: Config, now: int, steps: seq<Step>, cap: real) {
    && Runnable(c, Init(c, now), steps)
    && cap >= 0.0
    && forall i :: 0 <= i < |steps| ==> PricedStep(steps[i], cap)
  }

  /**
  Over every run in which calls cost between 0 and `cap`, and for every scope, window and positive
  limit: what was ever spent in the window stays below the limit, plus what failed inserts lost, plus
  what was deleted with its agent or tool, plus `cap` for every unsettled call and every request let
  through unguarded during the window.
  */
  lemma OvershootBound(c: Config, w: Watch, cap: real, now: int, steps: seq<Step>)
    requires GoodConfig(c) && w.limit > 0.0 && PricedRun(c, now, steps, cap)
    ensures SpendingBounded(c, w, cap, After(c, Init(c, now), steps))
  {
    InitGood(c, w, cap, now);
    InitBounded(c, w, cap, now);
    RunKeepsBounded(c, w, cap, Init(c, now), steps);
    BoundedSpending(c, w, cap, After(c, Init(c, now), steps));
  }

  /** No insert failed, and every pass in the window compared with a limit no larger. */
  predicate Unfailing(c: Config, w: Watch, s: State) {
    s.dropped == [] && UnguardedIn(c, w, s.passes) == 0
  }

  lemma GuardedBound(c: Config, w: Watch, cap: real, s: State)
    requires c.batchSize >= 1 && SpendingBounded(c, w, cap, s) && Unfailing(c, w, s)
    ensures SpentIn(c, w, s) < w.limit + ForgottenIn(c, w, s) + Times(Unsettled(c), cap)
  {
    assert Lost(s) == [];
    assert LostIn(c, w, s) == 0.0 && Allowance(c, w, s) == Unsettled(c);
  }

  /** In such runs only unsettled calls and deleted transactions overshoot. */
  lemma GuardedOvershoot(c: Config, w: Watch, cap: real, now: int, steps: seq<Step>)
    requires GoodConfig(c) && w.limit > 0.0 && PricedRun(c, now, steps, cap)
    requires Unfailing(c, w, After(c, Init(c, now), steps))
    ensures var s := After(c, Init(c, now), steps);
            SpentIn(c, w, s) < w.limit + ForgottenIn(c, w, s) + Times(Unsettled(c), cap)
  {
    OvershootBound(c, w, cap, now, steps);
    GuardedBound(c, w, cap, After(c, Init(c, now), steps));
  }

  lemma FreeSpending(c: Config, w: Watch, s: State)
    requires Good(c, w, 0.0, s)
    ensures SpentIn(c, w, s) <= 0.0
  {
    WindowCostWithin(c, w, s.recorded, 0.0);
    TimesNothing(|s.recorded|);
  }

  /** When calls cost nothing, nothing is spent. */
  lemma FreeCalls(c: Config, w: Watch, now: int, steps: seq<Step>)
    requires GoodConfig(c) && w.limit > 0.0 && PricedRun(c, now, steps, 0.0)
    ensures SpentIn(c, w, After(c, Init(c, now), steps)) <= 0.0
  {
    InitGood(c, w, 0.0, now);
    InitBounded(c, w, 0.0, now);
    RunKeepsBounded(c, w, 0.0, Init(c, now), steps);
    FreeSpending(c, w, After(c, Init(c, now), steps));
  }
}
