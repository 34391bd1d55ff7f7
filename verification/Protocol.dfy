/**
Admission and metering as one protocol.  Request threads check spending against the stored
transactions, forward, and record what the call cost; recorded transactions wait in a shared
buffer that request threads and a ticker drain into the store.  Agents and tools can be deleted, and
their transactions are deleted with them.  The steps are the database queries and the sections under
the collector's lock, in any interleaving.
*/
module Protocol {
  import opened Common
  import opened Metering
  import opened Budget
  import Collector

  // ---------------------------------------------------------------- states and steps

  datatype Req = Req(agentID: string, toolID: string)

  /** Where a thread is. */
  datatype PC =
    | Idle
    | GotBudget(req: Req, at: int, limits: Limits)                 // budget row and clock read
    | GotDaily(req: Req, at: int, limits: Limits, daily: real)     // and the day's spending
    | AgentPassed(req: Req)                                        // the agent check let it through
    | GotTool(req: Req, at: int, limit: real, period: Period)      // tool row and clock read
    | Forwarding(req: Req)                                         // both checks let it through
    | Stamped(tx: Transaction)                                     // answered; the transaction is made
    | PendingFlush                                                 // its transaction filled the buffer
    | Inserting(k: nat)                                            // it drained batch k and is storing it

  /** A check let a request through: the spending it read was under this limit, or it did not limit. */
  datatype Pass = Pass(scope: Scope, period: Period, at: int, under: Option<real>)

  /** Threads `0 .. requests - 1` serve requests; the last thread is the ticker. */
  datatype Config = Config(batchSize: nat, requests: nat, start: Calendar)

  /** A row that transactions belong to: they are deleted with it, and none can be stored without it. */
  datatype Owner = Agent(agentID: string) | Tool(toolID: string)

  datatype State = State(
    now: int,
    threads: seq<PC>,
    buffer: seq<Transaction>,
    batches: seq<seq<Transaction>>,   // every batch drained so far, in order
    inserted: seq<nat>,               // which of them were stored, in order
    dropped: seq<nat>,                // which of them a failed insert lost
    recorded: seq<Transaction>,       // every transaction recorded so far, in order
    passes: seq<Pass>,
    gone: set<Owner>)                 // the agents and tools deleted; generated ids are not used again

  datatype Step =
    | Advance(d: nat)
    | ReadBudget(i: nat, req: Req, row: Option<Limits>)
    | ReadDaily(i: nat, ok: bool)
    | ReadMonthly(i: nat, ok: bool)
    | ReadTool(i: nat, tool: Option<ToolLimit>)
    | ReadTotal(i: nat, ok: bool)
    | Abandon(i: nat)
    | Stamp(i: nat, call: Call)
    | Append(i: nat)
    | Drain(i: nat)
    | Insert(i: nat, ok: bool)
    | Delete(owner: Owner)

  ghost predicate GoodConfig(c: Config) {
    c.batchSize >= 1 && c.requests >= 1 && GoodCalendar(c.start)
  }

  function Init(c: Config, now: int): State {
    State(now, seq(c.requests + 1, i => Idle), [], [], [], [], [], [], {})
  }

  function Gather(batches: seq<seq<Transaction>>, ks: seq<nat>): seq<Transaction> {
    if ks == [] then []
    else Gather(batches, ks[..|ks| - 1]) + if ks[|ks| - 1] < |batches| then batches[ks[|ks| - 1]] else []
  }

  /** Every transaction ever stored. */
  function Inserted(s: State): seq<Transaction> {
    Gather(s.batches, s.inserted)
  }

  predicate HasOwners(gone: set<Owner>, agentID: string, toolID: string) {
    Agent(agentID) !in gone && Tool(toolID) !in gone
  }

  function Kept(gone: set<Owner>): Transaction -> bool {
    (tx: Transaction) => HasOwners(gone, tx.call.agentID, tx.call.toolID)
  }

  function Dropped(gone: set<Owner>): Transaction -> bool {
    (tx: Transaction) => !HasOwners(gone, tx.call.agentID, tx.call.toolID)
  }

  /** The transaction table: what was stored and not deleted with its agent or tool. */
  function Store(s: State): seq<Transaction> {
    Filter(Kept(s.gone), Inserted(s))
  }

  /** What was stored and then deleted with its agent or tool. */
  function Forgotten(s: State): seq<Transaction> {
    Filter(Dropped(s.gone), Inserted(s))
  }

  function Lost(s: State): seq<Transaction> {
    Gather(s.batches, s.dropped)
  }

  /** One statement takes no more parameters than this, and a transaction takes thirteen. */
  const MAX_PARAMETERS := 65535

  /** A batch can be stored if it fits into one statement and the agents and tools of its transactions exist. */
  predicate Storable(gone: set<Owner>, batch: seq<Transaction>) {
    COLUMNS * |batch| <= MAX_PARAMETERS && forall j :: 0 <= j < |batch| ==> Kept(gone)(batch[j])
  }

  /** Budget rows are deleted with their agent or tool, so a check does not find them afterwards. */
  predicate Enabled(c: Config, s: State, st: Step) {
    match st
    case Advance(_) => true
    case Delete(_) => true
    case ReadBudget(i, req, row) =>
      && i < c.requests && i < |s.threads| && s.threads[i].Idle?
      && (row.Some? ==> HasOwners(s.gone, req.agentID, req.toolID))
    case ReadDaily(i, _) => i < |s.threads| && s.threads[i].GotBudget?
    case ReadMonthly(i, _) => i < |s.threads| && s.threads[i].GotDaily?
    case ReadTool(i, tool) =>
      i < |s.threads| && s.threads[i].AgentPassed? && (tool.Some? ==> Tool(s.threads[i].req.toolID) !in s.gone)
    case ReadTotal(i, _) => i < |s.threads| && s.threads[i].GotTool?
    case Abandon(i) => i < |s.threads| && s.threads[i].Forwarding?
    case Stamp(i, call) =>
      i < |s.threads| && s.threads[i].Forwarding? && s.threads[i].req == Req(call.agentID, call.toolID)
    case Append(i) => i < |s.threads| && s.threads[i].Stamped?
    case Drain(i) => i < |s.threads| && (s.threads[i].PendingFlush? || (i == c.requests && s.threads[i].Idle?))
    case Insert(i, ok) =>
      && i < |s.threads| && s.threads[i].Inserting?
      && (ok ==> s.threads[i].k < |s.batches| && Storable(s.gone, s.batches[s.threads[i].k]))
  }

  function Guard(limit: real, spent: real): Option<real> {
    if limit > 0.0 && spent < limit then Some(limit) else None
  }

  function AgentScope(r: Req): Scope {
    AgentTool(r.agentID, r.toolID)
  }

  function AgentPasses(r: Req, at: int, daily: Option<real>, monthly: Option<real>): seq<Pass> {
    [Pass(AgentScope(r), Day, at, daily), Pass(AgentScope(r), Month, at, monthly)]
  }

  function ToolPasses(r: Req, at: int, daily: Option<real>, monthly: Option<real>): seq<Pass> {
    [Pass(WholeTool(r.toolID), Day, at, daily), Pass(WholeTool(r.toolID), Month, at, monthly)]
  }

  /** One thread moves on, perhaps having passed checks. */
  function Move(s: State, i: nat, pc: PC, passed: seq<Pass>): State
    requires i < |s.threads|
  {
    s.(threads := s.threads[i := pc], passes := s.passes + passed)
  }

  /** The steps of the two budget checks.  A query that fails, or a missing row, lets the request through. */
  function CheckStep(c: Config, s: State, st: Step): (PC, seq<Pass>)
    requires Enabled(c, s, st) && (st.ReadBudget? || st.ReadDaily? || st.ReadMonthly? || st.ReadTool? || st.ReadTotal?)
  {
    match st
    case ReadBudget(i, req, row) =>
      (match row
       case None => (AgentPassed(req), AgentPasses(req, s.now, None, None))
       case Some(limits) => (GotBudget(req, s.now, limits), []))
    case ReadDaily(i, ok) =>
      var pc := s.threads[i];
      if ok then (GotDaily(pc.req, pc.at, pc.limits, SpentSince(Store(s), AgentScope(pc.req), c.start(Day, pc.at))), [])
      else (AgentPassed(pc.req), AgentPasses(pc.req, s.now, None, None))
    case ReadMonthly(i, ok) =>
      var pc := s.threads[i];
      var daily := Guard(pc.limits.daily, pc.daily);
      if !ok then (AgentPassed(pc.req), AgentPasses(pc.req, s.now, daily, None))
      else
        var monthly := SpentSince(Store(s), AgentScope(pc.req), c.start(Month, pc.at));
        if Within(pc.limits.daily, pc.daily) && Within(pc.limits.monthly, monthly) then
          (AgentPassed(pc.req), AgentPasses(pc.req, s.now, daily, Guard(pc.limits.monthly, monthly)))
        else (Idle, [])
    case ReadTool(i, tool) =>
      var req := s.threads[i].req;
      (match tool
       case None => (Forwarding(req), ToolPasses(req, s.now, None, None))
       case Some(t) =>
         if t.limit == 0.0 then (Forwarding(req), ToolPasses(req, s.now, None, None))
         else (GotTool(req, s.now, t.limit, PeriodOf(t.window)), []))
    case ReadTotal(i, ok) =>
      var pc := s.threads[i];
      if !ok then (Forwarding(pc.req), ToolPasses(pc.req, s.now, None, None))
      else
        var total := SpentSince(Store(s), WholeTool(pc.req.toolID), c.start(pc.period, pc.at));
        if total < pc.limit then
          (Forwarding(pc.req), if pc.period.Day? then ToolPasses(pc.req, s.now, Some(pc.limit), None)
                               else ToolPasses(pc.req, s.now, None, Some(pc.limit)))
        else (Idle, [])
  }

  function Next(c: Config, s: State, st: Step): State
    requires Enabled(c, s, st)
  {
    match st
    case Advance(d) => s.(now := s.now + d)
    case Delete(owner) => s.(gone := s.gone + {owner})
    case Abandon(i) => Move(s, i, Idle, [])
    case Stamp(i, call) => Move(s, i, Stamped(Transaction(s.now, call)), [])
    case Append(i) =>
      var tx := s.threads[i].tx;
      s.(threads := s.threads[i := if Collector.Fills(s.buffer, c.batchSize) then PendingFlush else Idle],
         buffer := s.buffer + [tx], recorded := s.recorded + [tx])
    case Drain(i) =>
      if s.buffer == [] then s.(threads := s.threads[i := Idle])
      else s.(threads := s.threads[i := Inserting(|s.batches|)], buffer := [], batches := s.batches + [s.buffer])
    case Insert(i, ok) =>
      var k := s.threads[i].k;
      if ok then s.(threads := s.threads[i := Idle], inserted := s.inserted + [k])
      else s.(threads := s.threads[i := Idle], dropped := s.dropped + [k])
    case _ =>
      var (pc, passed) := CheckStep(c, s, st);
      Move(s, st.i, pc, passed)
  }

  predicate Runnable(c: Config, s: State, steps: seq<Step>)
    decreases |steps|
  {
    steps == [] || (Enabled(c, s, steps[0]) && Runnable(c, Next(c, s, steps[0]), steps[1..]))
  }

  function After(c: Config, s: State, steps: seq<Step>): State
    requires Runnable(c, s, steps)
    decreases |steps|
  {
    if steps == [] then s else After(c, Next(c, s, steps[0]), steps[1..])
  }

  // ---------------------------------------------------------------- counting threads

  function Count(ts: seq<PC>, p: PC -> bool): nat {
    if ts == [] then 0 else (if p(ts[0]) then 1 else 0) + Count(ts[1..], p)
  }

  function IsPending(): PC -> bool {
    (pc: PC) => pc.PendingFlush?
  }

  function IsInserting(k: nat): PC -> bool {
    (pc: PC) => pc == Inserting(k)
  }

  function Pending(s: State): nat {
    Count(s.threads, IsPending())
  }

  lemma {:induction false} CountUpdate(ts: seq<PC>, i: nat, pc: PC, p: PC -> bool)
    requires i < |ts|
    ensures Count(ts[i := pc], p) == Count(ts, p) - (if p(ts[i]) then 1 else 0) + (if p(pc) then 1 else 0)
  {
    if i == 0 {
      assert ts[i := pc][1..] == ts[1..];
    } else {
      CountUpdate(ts[1..], i - 1, pc, p);
      assert ts[i := pc][1..] == ts[1..][i - 1 := pc];
    }
  }

  lemma {:induction false} CountAtMost(ts: seq<PC>, p: PC -> bool)
    ensures Count(ts, p) <= |ts|
    ensures ts != [] && !p(ts[|ts| - 1]) ==> Count(ts, p) <= |ts| - 1
    ensures (forall i :: 0 <= i < |ts| ==> !p(ts[i])) ==> Count(ts, p) == 0
  {
    if ts != [] { CountAtMost(ts[1..], p); }
  }

  /** How often `k` occurs in a list. */
  function Occurs(k: nat, ks: seq<nat>): nat {
    multiset(ks)[k]
  }

  lemma OccursAppend(k: nat, ks: seq<nat>, x: nat)
    ensures Occurs(k, ks + [x]) == Occurs(k, ks) + if x == k then 1 else 0
  {
    assert multiset(ks + [x]) == multiset(ks) + multiset{x};
  }

  // ---------------------------------------------------------------- the shape of reachable states

  predicate Timely(now: int, pc: PC) {
    match pc
    case GotBudget(_, at, _) => at <= now
    case GotDaily(_, at, _, _) => at <= now
    case GotTool(_, at, _, _) => at <= now
    case Stamped(tx) => tx.timestamp <= now
    case _ => true
  }

  /** How often batch `k` was stored, lost, or is being stored by some thread. */
  function Fates(s: State, k: nat): nat {
    Occurs(k, s.inserted) + Occurs(k, s.dropped) + Count(s.threads, IsInserting(k))
  }

  ghost predicate Inv(c: Config, s: State) {
    && |s.threads| == c.requests + 1
    && (s.threads[c.requests].Idle? || s.threads[c.requests].Inserting?)
    && (forall i :: 0 <= i < |s.threads| ==> Timely(s.now, s.threads[i]))
    && (forall i :: 0 <= i < |s.recorded| ==> s.recorded[i].timestamp <= s.now)
    && (forall i :: 0 <= i < |s.threads| && s.threads[i].Inserting? ==> s.threads[i].k < |s.batches|)
    && (forall i :: 0 <= i < |s.inserted| ==> s.inserted[i] < |s.batches|)
    && (forall i :: 0 <= i < |s.dropped| ==> s.dropped[i] < |s.batches|)
    && |s.buffer| <= c.batchSize - 1 + Pending(s)
    && (forall k :: 0 <= k < |s.batches| ==> 1 <= |s.batches[k]| <= c.batchSize - 1 + c.requests)
    && Concat(s.batches) + s.buffer == s.recorded
  }

  predicate OneFate(s: State, k: nat) {
    Fates(s, k) == if k < |s.batches| then 1 else 0
  }

  ghost predicate EachOnce(s: State) {
    forall k: nat :: OneFate(s, k)
  }

  lemma InitInv(c: Config, now: int)
    requires GoodConfig(c)
    ensures Inv(c, Init(c, now)) && EachOnce(Init(c, now))
  {
    var s := Init(c, now);
    forall k: nat ensures OneFate(s, k) {
      CountAtMost(s.threads, IsInserting(k));
    }
  }

  lemma PendingAtMost(c: Config, s: State)
    requires Inv(c, s)
    ensures Pending(s) <= c.requests && |s.buffer| <= c.batchSize - 1 + c.requests
  {
    CountAtMost(s.threads, IsPending());
  }

  /** A thread that moves without touching buffer, batches or lists keeps the shape. */
  lemma MoveKeepsInv(c: Config, s: State, i: nat, pc: PC, passed: seq<Pass>)
    requires Inv(c, s) && i < c.requests && !s.threads[i].PendingFlush?
    requires Timely(s.now, pc) && !pc.PendingFlush? && !pc.Inserting?
    ensures Inv(c, Move(s, i, pc, passed))
  {
    CountUpdate(s.threads, i, pc, IsPending());
  }

  lemma AppendKeepsInv(c: Config, s: State, i: nat)
    requires GoodConfig(c) && Inv(c, s) && Enabled(c, s, Append(i))
    ensures Inv(c, Next(c, s, Append(i)))
  {
    CountUpdate(s.threads, i, if Collector.Fills(s.buffer, c.batchSize) then PendingFlush else Idle, IsPending());
    assert Concat(s.batches) + (s.buffer + [s.threads[i].tx]) == (Concat(s.batches) + s.buffer) + [s.threads[i].tx];
  }

  lemma DrainKeepsInv(c: Config, s: State, i: nat)
    requires GoodConfig(c) && Inv(c, s) && Enabled(c, s, Drain(i))
    ensures Inv(c, Next(c, s, Drain(i)))
  {
    PendingAtMost(c, s);
    if s.buffer == [] {
      CountUpdate(s.threads, i, Idle, IsPending());
    } else {
      CountUpdate(s.threads, i, Inserting(|s.batches|), IsPending());
      ConcatAppend(s.batches, s.buffer);
      assert Concat(s.batches + [s.buffer]) + [] == Concat(s.batches + [s.buffer]);
    }
  }

  lemma InsertKeepsInv(c: Config, s: State, i: nat, ok: bool)
    requires GoodConfig(c) && Inv(c, s) && Enabled(c, s, Insert(i, ok))
    ensures Inv(c, Next(c, s, Insert(i, ok)))
  {
    CountUpdate(s.threads, i, Idle, IsPending());
  }

  /** Every other step only moves one request thread, which neither comes from nor goes to the buffer. */
  lemma OtherSteps(c: Config, s: State, st: Step) returns (i: nat, pc: PC, passed: seq<Pass>)
    requires Inv(c, s) && Enabled(c, s, st)
    requires !st.Advance? && !st.Append? && !st.Drain? && !st.Insert? && !st.Delete?
    ensures i == st.i < c.requests && !s.threads[i].PendingFlush? && !s.threads[i].Inserting? && !s.threads[i].Stamped?
    ensures Timely(s.now, pc) && !pc.PendingFlush? && !pc.Inserting?
    ensures Next(c, s, st) == Move(s, i, pc, passed)
    ensures pc.Stamped? ==> st.Stamp? && pc.tx == Transaction(s.now, st.call)
  {
    i := st.i;
    if st.Abandon? {
      pc, passed := Idle, [];
    } else if st.Stamp? {
      pc, passed := Stamped(Transaction(s.now, st.call)), [];
    } else {
      pc, passed := CheckStep(c, s, st).0, CheckStep(c, s, st).1;
    }
  }

  lemma {:induction false} StepKeepsInv(c: Config, s: State, st: Step)
    requires GoodConfig(c) && Inv(c, s) && Enabled(c, s, st)
    ensures Inv(c, Next(c, s, st))
  {
    match st
    case Advance(d) =>
    case Delete(owner) =>
    case Append(i) => AppendKeepsInv(c, s, i);
    case Drain(i) => DrainKeepsInv(c, s, i);
    case Insert(i, ok) => InsertKeepsInv(c, s, i, ok);
    case _ =>
      var i, pc, passed := OtherSteps(c, s, st);
      MoveKeepsInv(c, s, i, pc, passed);
  }

  /** A thread that comes from no batch and goes to none leaves the fates alone. */
  lemma MoveKeepsOneFate(s: State, t: State, i: nat, k: nat)
    requires i < |s.threads| && OneFate(s, k) && !s.threads[i].Inserting?
    requires exists pc: PC :: !pc.Inserting? && t.threads == s.threads[i := pc]
    requires t.batches == s.batches && t.inserted == s.inserted && t.dropped == s.dropped
    ensures OneFate(t, k)
  {
    var pc: PC :| !pc.Inserting? && t.threads == s.threads[i := pc];
    CountUpdate(s.threads, i, pc, IsInserting(k));
  }

  lemma DrainKeepsOneFate(c: Config, s: State, i: nat, k: nat)
    requires Inv(c, s) && Enabled(c, s, Drain(i)) && OneFate(s, k)
    ensures OneFate(Next(c, s, Drain(i)), k)
  {
    CountUpdate(s.threads, i, Next(c, s, Drain(i)).threads[i], IsInserting(k));
  }

  /** A batch leaves its thread for one of the lists. */
  lemma InsertMovesFate(ts: seq<PC>, i: nat, list: seq<nat>, k: nat)
    requires i < |ts| && ts[i].Inserting?
    ensures Occurs(k, list + [ts[i].k]) + Count(ts[i := Idle], IsInserting(k))
              == Occurs(k, list) + Count(ts, IsInserting(k))
  {
    CountUpdate(ts, i, Idle, IsInserting(k));
    OccursAppend(k, list, ts[i].k);
  }

  lemma StoredOneFate(s: State, i: nat, k: nat)
    requires i < |s.threads| && s.threads[i].Inserting? && OneFate(s, k)
    ensures OneFate(s.(threads := s.threads[i := Idle], inserted := s.inserted + [s.threads[i].k]), k)
  {
    InsertMovesFate(s.threads, i, s.inserted, k);
  }

  lemma LostOneFate(s: State, i: nat, k: nat)
    requires i < |s.threads| && s.threads[i].Inserting? && OneFate(s, k)
    ensures OneFate(s.(threads := s.threads[i := Idle], dropped := s.dropped + [s.threads[i].k]), k)
  {
    InsertMovesFate(s.threads, i, s.dropped, k);
  }

  lemma {:induction false} StepKeepsOneFate(c: Config, s: State, st: Step, k: nat)
    requires GoodConfig(c) && Inv(c, s) && Enabled(c, s, st) && OneFate(s, k)
    ensures OneFate(Next(c, s, st), k)
  {
    if st.Advance? || st.Delete? {
    } else if st.Drain? {
      DrainKeepsOneFate(c, s, st.i, k);
    } else if st.Insert? {
      StoredOneFate(s, st.i, k);
      LostOneFate(s, st.i, k);
    } else if st.Append? {
      var t := Next(c, s, st);
      assert t.threads == s.threads[st.i := t.threads[st.i]] && !t.threads[st.i].Inserting?;
      MoveKeepsOneFate(s, t, st.i, k);
    } else {
      var i, pc, passed := OtherSteps(c, s, st);
      assert Next(c, s, st).threads == s.threads[i := pc];
      MoveKeepsOneFate(s, Next(c, s, st), i, k);
    }
  }

  lemma {:induction false} StepKeepsEachOnce(c: Config, s: State, st: Step)
    requires GoodConfig(c) && Inv(c, s) && Enabled(c, s, st) && EachOnce(s)
    ensures EachOnce(Next(c, s, st))
  {
    forall k: nat ensures OneFate(Next(c, s, st), k) {
      assert OneFate(s, k);
      StepKeepsOneFate(c, s, st, k);
    }
  }

  lemma {:induction false} RunKeepsShape(c: Config, s: State, steps: seq<Step>)
    requires GoodConfig(c) && Runnable(c, s, steps) && Inv(c, s) && EachOnce(s)
    ensures Inv(c, After(c, s, steps)) && EachOnce(After(c, s, steps))
    decreases |steps|
  {
    if steps != [] {
      StepKeepsInv(c, s, steps[0]);
      StepKeepsEachOnce(c, s, steps[0]);
      RunKeepsShape(c, Next(c, s, steps[0]), steps[1..]);
    }
  }

  // ---------------------------------------------------------------- the buffer and its batches

  /**
  Over every run: the buffer holds at most one less than the batch size plus the number of threads
  that have yet to flush; no batch is larger than that with every request thread waiting; and once
  all threads are idle the buffer is below the batch size.
  */
  lemma BufferBound(c: Config, now: int, steps: seq<Step>, k: nat)
    requires GoodConfig(c) && Runnable(c, Init(c, now), steps)
    ensures var s := After(c, Init(c, now), steps);
            && |s.buffer| <= c.batchSize - 1 + Pending(s) <= c.batchSize - 1 + c.requests
            && (k < |s.batches| ==> 1 <= |s.batches[k]| <= c.batchSize - 1 + c.requests)
            && ((forall i :: 0 <= i < |s.threads| ==> s.threads[i].Idle?) ==> |s.buffer| < c.batchSize)
  {
    var s := After(c, Init(c, now), steps);
    InitInv(c, now);
    RunKeepsShape(c, Init(c, now), steps);
    PendingAtMost(c, s);
    CountAtMost(s.threads, IsPending());
  }

  /**
  Over every run: the batches in the order they were drained, then the buffer, are all recorded
  transactions in the order they were recorded; and each batch has exactly one fate: it was stored
  once, or lost once, or exactly one thread is storing it.
  */
  lemma BatchesAreConserved(c: Config, now: int, steps: seq<Step>, k: nat)
    requires GoodConfig(c) && Runnable(c, Init(c, now), steps)
    ensures var s := After(c, Init(c, now), steps);
            && Concat(s.batches) + s.buffer == s.recorded
            && Occurs(k, s.inserted) + Occurs(k, s.dropped) + Count(s.threads, IsInserting(k))
                 == if k < |s.batches| then 1 else 0
  {
    InitInv(c, now);
    RunKeepsShape(c, Init(c, now), steps);
    assert OneFate(After(c, Init(c, now), steps), k);
  }

  // ---------------------------------------------------------------- sums over threads

  function Sum(ts: seq<PC>, g: PC -> real): real {
    if ts == [] then 0.0 else g(ts[0]) + Sum(ts[1..], g)
  }

  lemma {:induction false} SumUpdate(ts: seq<PC>, i: nat, pc: PC, g: PC -> real)
    requires i < |ts|
    ensures Sum(ts[i := pc], g) == Sum(ts, g) - g(ts[i]) + g(pc)
  {
    if i == 0 {
      assert ts[i := pc][1..] == ts[1..];
    } else {
      SumUpdate(ts[1..], i - 1, pc, g);
      assert ts[i := pc][1..] == ts[1..][i - 1 := pc];
    }
  }

  lemma {:induction false} SumOrder(ts: seq<PC>, g: PC -> real, h: PC -> real)
    requires forall i :: 0 <= i < |ts| ==> g(ts[i]) <= h(ts[i])
    ensures Sum(ts, g) <= Sum(ts, h)
  {
    if ts != [] { SumOrder(ts[1..], g, h); }
  }

  lemma {:induction false} SumWithin(ts: seq<PC>, g: PC -> real, b: real)
    requires forall i :: 0 <= i < |ts| ==> g(ts[i]) <= b
    ensures Sum(ts, g) <= Times(|ts|, b)
  {
    if ts != [] { SumWithin(ts[1..], g, b); }
  }

  lemma {:induction false} SumPlus(ts: seq<PC>, f: PC -> real, g: PC -> real, h: PC -> real)
    requires forall i :: 0 <= i < |ts| ==> h(ts[i]) == f(ts[i]) + g(ts[i])
    ensures Sum(ts, h) == Sum(ts, f) + Sum(ts, g)
  {
    if ts != [] { SumPlus(ts[1..], f, g, h); }
  }

  // ---------------------------------------------------------------- conservation of every weight

  /** What a thread holds: the batch it is storing. */
  function Held(batches: seq<seq<Transaction>>, f: Transaction -> real): PC -> real {
    (pc: PC) => if pc.Inserting? && pc.k < |batches| then Weigh(batches[pc.k], f) else 0.0
  }

  /** Recorded was stored, or is lost, buffered or held, whatever is counted. */
  predicate Balanced(s: State, f: Transaction -> real) {
    Weigh(s.recorded, f) == Weigh(Inserted(s), f) + Weigh(Lost(s), f) + Weigh(s.buffer, f) +
        Sum(s.threads, Held(s.batches, f))
  }

  lemma GatherOne(batches: seq<seq<Transaction>>, ks: seq<nat>, k: nat, f: Transaction -> real)
    requires k < |batches|
    ensures Weigh(Gather(batches, ks + [k]), f) == Weigh(Gather(batches, ks), f) + Weigh(batches[k], f)
  {
    assert (ks + [k])[..|ks|] == ks;
    WeighAppend(Gather(batches, ks), batches[k], f);
  }

  lemma {:induction false} GatherOld(batches: seq<seq<Transaction>>, b: seq<Transaction>, ks: seq<nat>)
    requires forall i :: 0 <= i < |ks| ==> ks[i] < |batches|
    ensures Gather(batches + [b], ks) == Gather(batches, ks)
  {
    if ks != [] { GatherOld(batches, b, ks[..|ks| - 1]); }
  }

  lemma HeldOld(c: Config, s: State, b: seq<Transaction>, f: Transaction -> real)
    requires Inv(c, s)
    ensures Sum(s.threads, Held(s.batches + [b], f)) == Sum(s.threads, Held(s.batches, f))
  {
    SumOrder(s.threads, Held(s.batches + [b], f), Held(s.batches, f));
    SumOrder(s.threads, Held(s.batches, f), Held(s.batches + [b], f));
  }

  lemma WeighOne(tx: Transaction, f: Transaction -> real)
    ensures Weigh([tx], f) == f(tx)
  {
    assert Weigh([tx], f) == f(tx) + Weigh([], f);
  }

  lemma DrainKeepsBalance(c: Config, s: State, i: nat, f: Transaction -> real)
    requires Inv(c, s) && Enabled(c, s, Drain(i)) && Balanced(s, f)
    ensures Balanced(Next(c, s, Drain(i)), f)
  {
    if s.buffer == [] {
      SumUpdate(s.threads, i, Idle, Held(s.batches, f));
    } else {
      var more := s.batches + [s.buffer];
      GatherOld(s.batches, s.buffer, s.inserted);
      GatherOld(s.batches, s.buffer, s.dropped);
      HeldOld(c, s, s.buffer, f);
      SumUpdate(s.threads, i, Inserting(|s.batches|), Held(more, f));
      assert more[|s.batches|] == s.buffer;
    }
  }

  lemma AppendKeepsBalance(c: Config, s: State, i: nat, f: Transaction -> real)
    requires Enabled(c, s, Append(i)) && Balanced(s, f)
    ensures Balanced(Next(c, s, Append(i)), f)
  {
    var tx := s.threads[i].tx;
    SumUpdate(s.threads, i, Next(c, s, Append(i)).threads[i], Held(s.batches, f));
    WeighAppend(s.buffer, [tx], f);
    WeighAppend(s.recorded, [tx], f);
  }

  lemma InsertKeepsBalance(c: Config, s: State, i: nat, ok: bool, f: Transaction -> real)
    requires Inv(c, s) && Enabled(c, s, Insert(i, ok)) && Balanced(s, f)
    ensures Balanced(Next(c, s, Insert(i, ok)), f)
  {
    SumUpdate(s.threads, i, Idle, Held(s.batches, f));
    GatherOne(s.batches, if ok then s.inserted else s.dropped, s.threads[i].k, f);
  }

  lemma MoveKeepsBalance(s: State, i: nat, pc: PC, passed: seq<Pass>, f: Transaction -> real)
    requires i < |s.threads| && !s.threads[i].Inserting? && !pc.Inserting? && Balanced(s, f)
    ensures Balanced(Move(s, i, pc, passed), f)
  {
    SumUpdate(s.threads, i, pc, Held(s.batches, f));
  }

  lemma {:induction false} StepKeepsBalance(c: Config, s: State, st: Step, f: Transaction -> real)
    requires GoodConfig(c) && Inv(c, s) && Enabled(c, s, st) && Balanced(s, f)
    ensures Balanced(Next(c, s, st), f)
  {
    if st.Advance? || st.Delete? {
    } else if st.Drain? {
      DrainKeepsBalance(c, s, st.i, f);
    } else if st.Append? {
      AppendKeepsBalance(c, s, st.i, f);
    } else if st.Insert? {
      InsertKeepsBalance(c, s, st.i, st.ok, f);
    } else {
      var i, pc, passed := OtherSteps(c, s, st);
      MoveKeepsBalance(s, i, pc, passed, f);
    }
  }

  lemma {:induction false} RunKeepsBalance(c: Config, s: State, steps: seq<Step>, f: Transaction -> real)
    requires GoodConfig(c) && Runnable(c, s, steps) && Inv(c, s) && Balanced(s, f)
    ensures Balanced(After(c, s, steps), f)
    decreases |steps|
  {
    if steps != [] {
      StepKeepsInv(c, s, steps[0]);
      StepKeepsBalance(c, s, steps[0], f);
      RunKeepsBalance(c, Next(c, s, steps[0]), steps[1..], f);
    }
  }

  lemma InitBalanced(c: Config, now: int, f: Transaction -> real)
    ensures Balanced(Init(c, now), f)
  {
    var s := Init(c, now);
    NothingHeld(s.threads, f);
  }

  lemma {:induction false} NothingHeld(ts: seq<PC>, f: Transaction -> real)
    requires forall i :: 0 <= i < |ts| ==> ts[i].Idle?
    ensures Sum(ts, Held([], f)) == 0.0
  {
    if ts != [] { NothingHeld(ts[1..], f); }
  }

  lemma {:induction false} FilterSplits(txs: seq<Transaction>, p: Transaction -> bool, q: Transaction -> bool,
                                        f: Transaction -> real)
    requires forall tx :: q(tx) <==> !p(tx)
    ensures Weigh(txs, f) == Weigh(Filter(p, txs), f) + Weigh(Filter(q, txs), f)
  {
    if txs != [] {
      FilterSplits(txs[1..], p, q, f);
      WeighAppend([txs[0]], Filter(p, txs[1..]), f);
      WeighAppend([txs[0]], Filter(q, txs[1..]), f);
      WeighOne(txs[0], f);
    }
  }

  /** What was ever stored is in the table still, or was deleted with its agent or tool. */
  lemma StoredOrForgotten(s: State, f: Transaction -> real)
    ensures Weigh(Inserted(s), f) == Weigh(Store(s), f) + Weigh(Forgotten(s), f)
  {
    FilterSplits(Inserted(s), Kept(s.gone), Dropped(s.gone), f);
  }

  /**
  Over every run and for every way of weighing transactions, what was recorded is what is stored,
  was deleted, was lost, waits in the buffer and is held by threads: none is duplicated and none
  vanishes.
  */
  lemma WeightIsConserved(c: Config, now: int, steps: seq<Step>, f: Transaction -> real)
    requires GoodConfig(c) && Runnable(c, Init(c, now), steps)
    ensures var s := After(c, Init(c, now), steps);
            Weigh(s.recorded, f) == Weigh(Store(s), f) + Weigh(Forgotten(s), f) + Weigh(Lost(s), f)
                                      + Weigh(s.buffer, f) + Sum(s.threads, Held(s.batches, f))
  {
    InitInv(c, now);
    InitBalanced(c, now, f);
    RunKeepsBalance(c, Init(c, now), steps, f);
    StoredOrForgotten(After(c, Init(c, now), steps), f);
  }
}
