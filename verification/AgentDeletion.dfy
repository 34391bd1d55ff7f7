/**
Spending of one agent on one tool when the agent or the tool can be deleted.  What the agent had
stored is deleted too, but so is its budget row: only checks that have read the row already can
still pass a limit, so a deletion lets no more than one call of every request thread through.
*/
module AgentDeletion {
  import opened Common
  import opened Metering
  import opened Budget
  import opened Protocol
  import opened InFlight
  import opened Overshoot

  /** The agent or the tool under watch is deleted. */
  predicate IsGone(w: Watch, s: State)
    requires w.scope.AgentTool?
  {
    !HasOwners(s.gone, w.scope.agentID, w.scope.toolID)
  }

  /** The thread has read the budget row under watch and may yet pass the check. */
  predicate Holding(w: Watch, pc: PC)
    requires w.scope.AgentTool?
  {
    (pc.GotBudget? || pc.GotDaily?) && OnScope(w, pc.req)
  }

  /** What a thread may add once its budget row is deleted. */
  function LateWeight(c: Config, w: Watch, cap: real, now: int): PC -> real
    requires w.scope.AgentTool?
  {
    (pc: PC) =>
      if pc.Stamped? then WindowCost(c, w)(pc.tx)
      else if (Committed(w, pc) || Holding(w, pc)) && c.start(w.period, now) <= w.window then cap
      else 0.0
  }

  function LateExposure(c: Config, w: Watch, cap: real, s: State): real
    requires w.scope.AgentTool?
  {
    Weigh(s.recorded, WindowCost(c, w)) + Sum(s.threads, LateWeight(c, w, cap, s.now))
  }

  /** The calls allowed for: the unsettled ones, one of every request thread, and the unguarded ones. */
  function LateAllowance(c: Config, w: Watch, s: State): nat
    requires c.batchSize >= 1
  {
    c.requests + Allowance(c, w, s)
  }

  predicate LateBounded(c: Config, w: Watch, cap: real, s: State)
    requires c.batchSize >= 1 && w.scope.AgentTool?
  {
    c.start(w.period, s.now) >= w.window ==>
      LateExposure(c, w, cap, s) - LostIn(c, w, s) < w.limit + Times(LateAllowance(c, w, s), cap)
  }

  lemma PlainLateWeight(c: Config, w: Watch, cap: real, now: int, pc: PC)
    requires !pc.Stamped? && w.scope.AgentTool?
    ensures LateWeight(c, w, cap, now)(pc)
              == if (Committed(w, pc) || Holding(w, pc)) && c.start(w.period, now) <= w.window then cap else 0.0
  {
  }

  // ---------------------------------------------------------------- before the deletion

  /** As long as agent and tool exist, none of their transactions was deleted. */
  lemma NothingForgotten(c: Config, w: Watch, s: State)
    requires w.scope.AgentTool? && !IsGone(w, s)
    ensures ForgottenIn(c, w, s) == 0.0
  {
    DroppedOthers(c, w, Inserted(s), s.gone);
  }

  lemma {:induction false} DroppedOthers(c: Config, w: Watch, txs: seq<Transaction>, gone: set<Owner>)
    requires w.scope.AgentTool? && HasOwners(gone, w.scope.agentID, w.scope.toolID)
    ensures Weigh(Filter(Dropped(gone), txs), WindowCost(c, w)) == 0.0
  {
    if txs != [] {
      DroppedOthers(c, w, txs[1..], gone);
      if Dropped(gone)(txs[0]) {
        assert !Covers(w.scope, txs[0]);
        WeighAppend([txs[0]], Filter(Dropped(gone), txs[1..]), WindowCost(c, w));
        WeighOne(txs[0], WindowCost(c, w));
      }
    }
  }

  /** At any moment the request threads that hold a row may add a call each. */
  lemma HoldersAdd(c: Config, w: Watch, cap: real, s: State)
    requires Inv(c, s) && w.scope.AgentTool? && cap >= 0.0
    ensures Sum(s.threads, LateWeight(c, w, cap, s.now))
              <= Sum(s.threads, Weight(c, w, cap, s.now)) + Times(c.requests, cap)
  {
    var late, weight := LateWeight(c, w, cap, s.now), Weight(c, w, cap, s.now);
    var more := (pc: PC) => late(pc) - weight(pc);
    forall i | 0 <= i < |s.threads| ensures more(s.threads[i]) <= cap {
      if !s.threads[i].Stamped? { PlainWeight(c, w, cap, s.now, s.threads[i]); }
    }
    SumPlus(s.threads, weight, more, late);
    SumFront(s.threads, more);
    SumWithin(Servers(c, s), more, cap);
    PlainWeight(c, w, cap, s.now, s.threads[c.requests]);
    PlainLateWeight(c, w, cap, s.now, s.threads[c.requests]);
  }

  lemma LateExposureAtMost(c: Config, w: Watch, cap: real, s: State)
    requires Inv(c, s) && w.scope.AgentTool? && cap >= 0.0
    ensures LateExposure(c, w, cap, s) <= Exposure(c, w, cap, s) + Times(c.requests, cap)
  {
    HoldersAdd(c, w, cap, s);
  }

  lemma HoldersAllowed(c: Config, w: Watch, cap: real, s: State)
    requires Inv(c, s) && w.scope.AgentTool? && cap >= 0.0 && c.batchSize >= 1
    ensures LateExposure(c, w, cap, s) - Times(LateAllowance(c, w, s), cap)
              <= Exposure(c, w, cap, s) - Times(Allowance(c, w, s), cap)
  {
    LateExposureAtMost(c, w, cap, s);
    TimesPlus(c.requests, Allowance(c, w, s), cap);
  }

  /** At the step that deletes the agent or the tool, the threads that hold the row are allowed for. */
  lemma DeletionBounded(c: Config, w: Watch, cap: real, s: State)
    requires Good(c, w, cap, s) && w.scope.AgentTool? && !IsGone(w, s) && Bounded(c, w, cap, s)
    ensures LateBounded(c, w, cap, s)
  {
    NothingForgotten(c, w, s);
    HoldersAllowed(c, w, cap, s);
  }

  /** What is deleted does not matter to the late bound. */
  lemma GoneAlike(c: Config, w: Watch, cap: real, s: State, t: State)
    requires c.batchSize >= 1 && w.scope.AgentTool? && LateBounded(c, w, cap, s) && t == s.(gone := t.gone)
    ensures LateBounded(c, w, cap, t)
  {
  }

  // ---------------------------------------------------------------- after the deletion

  lemma LateMove(c: Config, w: Watch, cap: real, s: State, i: nat, pc: PC, passed: seq<Pass>)
    requires i < |s.threads| && w.scope.AgentTool? && c.batchSize >= 1
    ensures LateExposure(c, w, cap, Move(s, i, pc, passed))
              == LateExposure(c, w, cap, s) - LateWeight(c, w, cap, s.now)(s.threads[i]) +
                  LateWeight(c, w, cap, s.now)(pc)
    ensures LostIn(c, w, Move(s, i, pc, passed)) == LostIn(c, w, s)
    ensures LateAllowance(c, w, Move(s, i, pc, passed)) == LateAllowance(c, w, s) + UnguardedIn(c, w, passed)
  {
    SumUpdate(s.threads, i, pc, LateWeight(c, w, cap, s.now));
    UnguardedAppend(c, w, s.passes, passed);
  }

  lemma LateMoveKeeps(c: Config, w: Watch, cap: real, s: State, i: nat, pc: PC, passed: seq<Pass>)
    requires c.batchSize >= 1 && cap >= 0.0 && i < |s.threads| && w.scope.AgentTool? && LateBounded(c, w, cap, s)
    requires c.start(w.period, s.now) >= w.window ==>
               LateWeight(c, w, cap, s.now)(pc) <=
               LateWeight(c, w, cap, s.now)(s.threads[i]) + if UnguardedIn(c, w, passed) >= 1 then cap else 0.0
    ensures LateBounded(c, w, cap, Move(s, i, pc, passed))
  {
    var t := Move(s, i, pc, passed);
    LateMove(c, w, cap, s, i, pc, passed);
    OneMoreTimes(LateAllowance(c, w, s), LateAllowance(c, w, t), cap);
    if c.start(w.period, s.now) >= w.window {
      StillBelow(LateExposure(c, w, cap, s), LateExposure(c, w, cap, t), LostIn(c, w, s), w.limit,
                 Times(LateAllowance(c, w, s), cap), Times(LateAllowance(c, w, t), cap));
    }
  }

  /** Once the row is deleted a thread that newly passes the check does so without a row, and so unguarded. */
  lemma LateCheckWeight(c: Config, w: Watch, cap: real, s: State, st: Step)
    requires Inv(c, s) && Enabled(c, s, st) && w.scope.AgentTool? && IsGone(w, s) && cap >= 0.0
    requires st.ReadBudget? || st.ReadDaily? || st.ReadMonthly? || st.ReadTool? || st.ReadTotal?
    requires c.start(w.period, s.now) >= w.window
    ensures LateWeight(c, w, cap, s.now)(CheckStep(c, s, st).0) <=
            LateWeight(c, w, cap, s.now)(s.threads[st.i]) +
            if UnguardedIn(c, w, CheckStep(c, s, st).1) >= 1 then cap else 0.0
  {
    var pc, next := s.threads[st.i], CheckStep(c, s, st).0;
    PlainLateWeight(c, w, cap, s.now, pc);
    PlainLateWeight(c, w, cap, s.now, next);
    if st.ReadBudget? && st.row.None? {
      TwoPasses(c, w, Pass(AgentScope(st.req), Day, s.now, None), Pass(AgentScope(st.req), Month, s.now, None));
    }
  }

  lemma LateAdvance(c: Config, w: Watch, cap: real, s: State, t: State)
    requires Good(c, w, cap, s) && w.scope.AgentTool? && LateBounded(c, w, cap, s)
    requires s.now <= t.now && t == s.(now := t.now)
    ensures LateBounded(c, w, cap, t)
  {
    if c.start(w.period, s.now) >= w.window {
      LateLater(c, w, cap, s, t.now);
      LateLessLater(c, w, cap, s, t);
    } else {
      LateOpens(c, w, cap, s, t);
    }
  }

  lemma LateLater(c: Config, w: Watch, cap: real, s: State, now: int)
    requires GoodConfig(c) && cap >= 0.0 && s.now <= now && w.scope.AgentTool?
    ensures LateExposure(c, w, cap, s.(now := now)) <= LateExposure(c, w, cap, s)
  {
    LateWeightsFall(c, w, cap, s, now);
  }

  lemma LateLessLater(c: Config, w: Watch, cap: real, s: State, t: State)
    requires c.batchSize >= 1 && w.scope.AgentTool? && LateBounded(c, w, cap, s) && c.start(w.period, s.now) >= w.window
    requires LateExposure(c, w, cap, t) <= LateExposure(c, w, cap, s) && LostIn(c, w, s) <= LostIn(c, w, t)
    requires LateAllowance(c, w, t) == LateAllowance(c, w, s)
    ensures LateBounded(c, w, cap, t)
  {
  }

  lemma LateWeightsFall(c: Config, w: Watch, cap: real, s: State, now: int)
    requires GoodConfig(c) && cap >= 0.0 && s.now <= now && w.scope.AgentTool?
    ensures Sum(s.threads, LateWeight(c, w, cap, now)) <= Sum(s.threads, LateWeight(c, w, cap, s.now))
  {
    assert c.start(w.period, s.now) <= c.start(w.period, now);
    forall i | 0 <= i < |s.threads|
      ensures LateWeight(c, w, cap, now)(s.threads[i]) <= LateWeight(c, w, cap, s.now)(s.threads[i])
    {
      if !s.threads[i].Stamped? {
        PlainLateWeight(c, w, cap, now, s.threads[i]);
        PlainLateWeight(c, w, cap, s.now, s.threads[i]);
      }
    }
    SumOrder(s.threads, LateWeight(c, w, cap, now), LateWeight(c, w, cap, s.now));
  }

  lemma LateWeightsAtMost(c: Config, w: Watch, cap: real, s: State, now: int)
    requires Good(c, w, cap, s) && w.scope.AgentTool?
    ensures Sum(s.threads, LateWeight(c, w, cap, now)) <= Times(c.requests + 1, cap)
  {
    forall i | 0 <= i < |s.threads| ensures LateWeight(c, w, cap, now)(s.threads[i]) <= cap {
      assert s.threads[i].Stamped? ==> Priced(s.threads[i].tx, cap);
    }
    SumWithin(s.threads, LateWeight(c, w, cap, now), cap);
  }

  lemma LateOpen(c: Config, w: Watch, cap: real, s: State)
    requires GoodConfig(c) && w.limit > 0.0 && cap >= 0.0 && SpentIn(c, w, s) <= 0.0 && LostIn(c, w, s) >= 0.0
    requires w.scope.AgentTool? && Sum(s.threads, LateWeight(c, w, cap, s.now)) <= Times(c.requests + 1, cap)
    ensures LateBounded(c, w, cap, s)
  {
    EnoughUnsettled(c);
    TimesUp(c.requests + 1, LateAllowance(c, w, s), cap);
    OpensBelow(SpentIn(c, w, s), Sum(s.threads, LateWeight(c, w, cap, s.now)), LostIn(c, w, s), w.limit,
               Times(c.requests + 1, cap), Times(LateAllowance(c, w, s), cap));
  }

  lemma LateOpens(c: Config, w: Watch, cap: real, s: State, t: State)
    requires Good(c, w, cap, s) && w.scope.AgentTool? && c.start(w.period, s.now) < w.window && t == s.(now := t.now)
    ensures LateBounded(c, w, cap, t)
  {
    VanishedIsPriced(c, w, cap, s);
    BeforeWindow(c, w, cap, s);
    LateWeightsAtMost(c, w, cap, s, t.now);
    LateOpen(c, w, cap, t);
  }

  lemma LateStamp(c: Config, w: Watch, cap: real, s: State, i: nat, call: Call)
    requires c.batchSize >= 1 && 0.0 <= call.cost <= cap && Enabled(c, s, Stamp(i, call))
    requires w.scope.AgentTool? && LateBounded(c, w, cap, s)
    ensures LateBounded(c, w, cap, Next(c, s, Stamp(i, call)))
  {
    var tx := Transaction(s.now, call);
    PlainLateWeight(c, w, cap, s.now, s.threads[i]);
    assert LateWeight(c, w, cap, s.now)(Stamped(tx)) == WindowCost(c, w)(tx);
    LateMoveKeeps(c, w, cap, s, i, Stamped(tx), []);
  }

  lemma LateAbandon(c: Config, w: Watch, cap: real, s: State, i: nat)
    requires c.batchSize >= 1 && cap >= 0.0 && Enabled(c, s, Abandon(i))
    requires w.scope.AgentTool? && LateBounded(c, w, cap, s)
    ensures LateBounded(c, w, cap, Next(c, s, Abandon(i)))
  {
    PlainLateWeight(c, w, cap, s.now, s.threads[i]);
    PlainLateWeight(c, w, cap, s.now, Idle);
    LateMoveKeeps(c, w, cap, s, i, Idle, []);
  }

  lemma LateAppend(c: Config, w: Watch, cap: real, s: State, i: nat)
    requires c.batchSize >= 1 && Enabled(c, s, Append(i)) && w.scope.AgentTool? && LateBounded(c, w, cap, s)
    ensures LateBounded(c, w, cap, Next(c, s, Append(i)))
  {
    var tx, next := s.threads[i].tx, Next(c, s, Append(i)).threads[i];
    SumUpdate(s.threads, i, next, LateWeight(c, w, cap, s.now));
    PlainLateWeight(c, w, cap, s.now, next);
    WeighAppend(s.recorded, [tx], WindowCost(c, w));
    WeighOne(tx, WindowCost(c, w));
    assert LateWeight(c, w, cap, s.now)(s.threads[i]) == WindowCost(c, w)(tx);
  }

  lemma LateSwap(c: Config, w: Watch, cap: real, s: State, t: State, i: nat, pc: PC)
    requires w.scope.AgentTool? && i < |s.threads| && t.threads == s.threads[i := pc]
    requires (t.now, t.recorded, t.passes) == (s.now, s.recorded, s.passes)
    requires LateWeight(c, w, cap, s.now)(s.threads[i]) == LateWeight(c, w, cap, s.now)(pc)
    ensures LateExposure(c, w, cap, t) == LateExposure(c, w, cap, s)
    ensures c.batchSize >= 1 ==> LateAllowance(c, w, t) == LateAllowance(c, w, s)
  {
    SumUpdate(s.threads, i, pc, LateWeight(c, w, cap, s.now));
  }

  lemma LateFlushExposure(c: Config, w: Watch, cap: real, s: State, st: Step, t: State)
    requires Enabled(c, s, st) && (st.Drain? || st.Insert?) && w.scope.AgentTool? && t == Next(c, s, st)
    ensures LateExposure(c, w, cap, t) == LateExposure(c, w, cap, s)
    ensures c.batchSize >= 1 ==> LateAllowance(c, w, t) == LateAllowance(c, w, s)
  {
    var pc := t.threads[st.i];
    PlainLateWeight(c, w, cap, s.now, s.threads[st.i]);
    PlainLateWeight(c, w, cap, s.now, pc);
    LateSwap(c, w, cap, s, t, st.i, pc);
  }

  lemma LateLess(c: Config, w: Watch, cap: real, s: State, t: State)
    requires c.batchSize >= 1 && w.scope.AgentTool? && LateBounded(c, w, cap, s) && t.now == s.now
    requires LateExposure(c, w, cap, t) == LateExposure(c, w, cap, s) && LostIn(c, w, s) <= LostIn(c, w, t)
    requires LateAllowance(c, w, t) == LateAllowance(c, w, s)
    ensures LateBounded(c, w, cap, t)
  {
  }

  lemma LateFlush(c: Config, w: Watch, cap: real, s: State, st: Step)
    requires Good(c, w, cap, s) && Enabled(c, s, st) && (st.Drain? || st.Insert?)
    requires w.scope.AgentTool? && LateBounded(c, w, cap, s)
    ensures LateBounded(c, w, cap, Next(c, s, st))
  {
    LostOnlyGrows(c, w, cap, s, st);
    LateFlushExposure(c, w, cap, s, st, Next(c, s, st));
    LateLess(c, w, cap, s, Next(c, s, st));
  }

  lemma LateCheck(c: Config, w: Watch, cap: real, s: State, st: Step)
    requires Good(c, w, cap, s) && Enabled(c, s, st) && w.scope.AgentTool? && IsGone(w, s) && LateBounded(c, w, cap, s)
    requires st.ReadBudget? || st.ReadDaily? || st.ReadMonthly? || st.ReadTool? || st.ReadTotal?
    ensures LateBounded(c, w, cap, Move(s, st.i, CheckStep(c, s, st).0, CheckStep(c, s, st).1))
  {
    if c.start(w.period, s.now) >= w.window { LateCheckWeight(c, w, cap, s, st); }
    LateMoveKeeps(c, w, cap, s, st.i, CheckStep(c, s, st).0, CheckStep(c, s, st).1);
  }

  lemma LateStep(c: Config, w: Watch, cap: real, s: State, st: Step)
    requires Good(c, w, cap, s) && Enabled(c, s, st) && PricedStep(st, cap)
    requires w.scope.AgentTool? && IsGone(w, s) && LateBounded(c, w, cap, s)
    ensures LateBounded(c, w, cap, Next(c, s, st))
  {
    if st.Advance? {
      LateAdvance(c, w, cap, s, Next(c, s, st));
    } else if st.Abandon? {
      LateAbandon(c, w, cap, s, st.i);
    } else if st.Stamp? {
      LateStamp(c, w, cap, s, st.i, st.call);
    } else if st.Append? {
      LateAppend(c, w, cap, s, st.i);
    } else if st.Drain? || st.Insert? {
      LateFlush(c, w, cap, s, st);
    } else if st.Delete? {
      GoneAlike(c, w, cap, s, Next(c, s, st));
    } else {
      LateCheck(c, w, cap, s, st);
    }
  }

  // ---------------------------------------------------------------- over whole runs

  predicate AgentBounded(c: Config, w: Watch, cap: real, s: State)
    requires c.batchSize >= 1 && w.scope.AgentTool?
  {
    if IsGone(w, s) then LateBounded(c, w, cap, s) else Bounded(c, w, cap, s)
  }

  lemma StepKeepsAgentBounded(c: Config, w: Watch, cap: real, s: State, st: Step)
    requires Good(c, w, cap, s) && Enabled(c, s, st) && PricedStep(st, cap)
    requires w.scope.AgentTool? && AgentBounded(c, w, cap, s)
    ensures AgentBounded(c, w, cap, Next(c, s, st))
  {
    if IsGone(w, s) {
      LateStep(c, w, cap, s, st);
    } else if IsGone(w, Next(c, s, st)) {
      DeletionBounded(c, w, cap, s);
      GoneAlike(c, w, cap, s, Next(c, s, st));
    } else {
      StepKeepsBounded(c, w, cap, s, st);
    }
  }

  lemma {:induction false} RunKeepsAgentBounded(c: Config, w: Watch, cap: real, s: State, steps: seq<Step>)
    requires Runnable(c, s, steps) && Good(c, w, cap, s) && w.scope.AgentTool? && AgentBounded(c, w, cap, s)
    requires forall i :: 0 <= i < |steps| ==> PricedStep(steps[i], cap)
    ensures Good(c, w, cap, After(c, s, steps)) && AgentBounded(c, w, cap, After(c, s, steps))
    decreases |steps|
  {
    if steps != [] {
      StepKeepsGood(c, w, cap, s, steps[0]);
      StepKeepsAgentBounded(c, w, cap, s, steps[0]);
      RunKeepsAgentBounded(c, w, cap, Next(c, s, steps[0]), steps[1..]);
    }
  }

  predicate AgentSpendingBounded(c: Config, w: Watch, cap: real, s: State)
    requires c.batchSize >= 1
  {
    SpentIn(c, w, s) < w.limit + LostIn(c, w, s) + Times(LateAllowance(c, w, s), cap)
  }

  lemma AgentBoundedSpending(c: Config, w: Watch, cap: real, s: State)
    requires Good(c, w, cap, s) && w.scope.AgentTool? && AgentBounded(c, w, cap, s)
    ensures AgentSpendingBounded(c, w, cap, s)
  {
    TimesUp(Allowance(c, w, s), LateAllowance(c, w, s), cap);
    VanishedIsPriced(c, w, cap, s);
    if !IsGone(w, s) {
      NothingForgotten(c, w, s);
      BoundedSpending(c, w, cap, s);
    } else if c.start(w.period, s.now) < w.window {
      BeforeWindow(c, w, cap, s);
    } else {
      LateNotNegative(c, w, cap, s);
    }
  }

  lemma LateNotNegative(c: Config, w: Watch, cap: real, s: State)
    requires Good(c, w, cap, s) && w.scope.AgentTool?
    ensures Sum(s.threads, LateWeight(c, w, cap, s.now)) >= 0.0
  {
    var none := (pc: PC) => 0.0;
    forall i | 0 <= i < |s.threads| ensures none(s.threads[i]) <= LateWeight(c, w, cap, s.now)(s.threads[i]) {
      assert s.threads[i].Stamped? ==> Priced(s.threads[i].tx, cap);
    }
    SumOrder(s.threads, none, LateWeight(c, w, cap, s.now));
    SumOfNothing(s.threads);
  }

  /**
  Over every run, and whatever is deleted: what one agent ever spent on one tool in the window stays
  below the limit, plus what failed inserts lost, plus `cap` for every unsettled call, for one call
  of every request thread, and for every request let through unguarded during the window.
  */
  lemma AgentOvershootBound(c: Config, w: Watch, cap: real, now: int, steps: seq<Step>)
    requires GoodConfig(c) && w.limit > 0.0 && PricedRun(c, now, steps, cap) && w.scope.AgentTool?
    ensures AgentSpendingBounded(c, w, cap, After(c, Init(c, now), steps))
  {
    InitGood(c, w, cap, now);
    InitBounded(c, w, cap, now);
    RunKeepsAgentBounded(c, w, cap, Init(c, now), steps);
    AgentBoundedSpending(c, w, cap, After(c, Init(c, now), steps));
  }
}
