/** Spending limits: what the budget checks read from the transaction table and how they decide. */
module Budget {
  import opened Common
  import opened Metering

  // ---------------------------------------------------------------- sums over transactions

  /** The sum of a weight over transactions. */
  function Weigh(txs: seq<Transaction>, f: Transaction -> real): real {
    if txs == [] then 0.0 else f(txs[0]) + Weigh(txs[1..], f)
  }

  lemma {:induction false} WeighAppend(a: seq<Transaction>, b: seq<Transaction>, f: Transaction -> real)
    ensures Weigh(a + b, f) == Weigh(a, f) + Weigh(b, f)
  {
    if a == [] {
      assert a + b == b;
    } else {
      WeighAppend(a[1..], b, f);
      assert (a + b)[1..] == a[1..] + b;
    }
  }

  lemma {:induction false} WeighOrder(txs: seq<Transaction>, f: Transaction -> real, g: Transaction -> real)
    requires forall i :: 0 <= i < |txs| ==> f(txs[i]) <= g(txs[i])
    ensures Weigh(txs, f) <= Weigh(txs, g)
  {
    if txs != [] { WeighOrder(txs[1..], f, g); }
  }

  /** `n` times `x`, by counting. */
  function Times(n: nat, x: real): real {
    if n == 0 then 0.0 else x + Times(n - 1, x)
  }

  lemma {:induction false} TimesPlus(a: nat, b: nat, x: real)
    ensures Times(a + b, x) == Times(a, x) + Times(b, x)
  {
    if a > 0 { TimesPlus(a - 1, b, x); }
  }

  lemma {:induction false} TimesTimes(a: nat, b: nat, x: real)
    ensures a * b >= 0 && Times(a * b, x) == Times(a, Times(b, x))
  {
    if a > 0 {
      TimesTimes(a - 1, b, x);
      TimesPlus(b, (a - 1) * b, x);
      assert a * b == b + (a - 1) * b;
    }
  }

  lemma TimesUp(a: nat, b: nat, x: real)
    requires a <= b && x >= 0.0
    ensures 0.0 <= Times(a, x) <= Times(b, x)
  {
    TimesNotNegative(a, x);
    TimesNotNegative(b - a, x);
    TimesPlus(a, b - a, x);
  }

  lemma {:induction false} TimesNotNegative(n: nat, x: real)
    requires x >= 0.0
    ensures Times(n, x) >= 0.0
  {
    if n > 0 { TimesNotNegative(n - 1, x); }
  }

  lemma {:induction false} TimesNothing(n: nat)
    ensures Times(n, 0.0) == 0.0
  {
    if n > 0 { TimesNothing(n - 1); }
  }

  /** Which is their product. */
  lemma {:induction false} TimesIs(n: nat, x: real)
    ensures Times(n, x) == n as real * x
  {
    if n > 0 { TimesIs(n - 1, x); }
  }

  lemma {:induction false} WeighWithin(txs: seq<Transaction>, f: Transaction -> real, c: real)
    requires forall i :: 0 <= i < |txs| ==> 0.0 <= f(txs[i]) <= c
    ensures 0.0 <= Weigh(txs, f) <= Times(|txs|, c)
  {
    if txs != [] { WeighWithin(txs[1..], f, c); }
  }

  // ---------------------------------------------------------------- windows and scopes

  datatype Period = Day | Month

  /** Where the day or the month of an instant starts; the calendar itself is a parameter. */
  type Calendar = (Period, int) -> int

  ghost predicate GoodCalendar(start: Calendar) {
    && (forall p, t: int :: start(p, t) <= t)
    && (forall p, t: int, u: int :: t <= u ==> start(p, t) <= start(p, u))
  }

  /** Whose spending is summed: one agent on one tool, or everyone on a tool. */
  datatype Scope = AgentTool(agentID: string, toolID: string) | WholeTool(toolID: string)

  predicate Covers(s: Scope, tx: Transaction) {
    match s
    case AgentTool(a, t) => tx.call.agentID == a && tx.call.toolID == t
    case WholeTool(t) => tx.call.toolID == t
  }

  /** The cost a transaction adds to the sum of a scope since an instant. */
  function CostSince(s: Scope, since: int): Transaction -> real {
    (tx: Transaction) => if Covers(s, tx) && tx.timestamp >= since then tx.call.cost else 0.0
  }

  function SpentSince(txs: seq<Transaction>, s: Scope, since: int): real {
    Weigh(txs, CostSince(s, since))
  }

  // ---------------------------------------------------------------- the two checks

  datatype Limits = Limits(daily: real, monthly: real)

  datatype ToolLimit = ToolLimit(limit: real, window: string)

  function PeriodOf(window: string): Period {
    if window == "daily" then Day else Month
  }

  /** For an agent a limit that is not positive does not limit. */
  predicate Within(limit: real, spent: real) {
    limit > 0.0 ==> spent < limit
  }

  /** For a tool only a limit of zero does not limit. */
  predicate ToolWithin(limit: real, spent: real) {
    limit != 0.0 ==> spent < limit
  }

  /** What is left of a limit: never negative, and made up to the limit by the spending unless that is over. */
  predicate LeftOver(limit: real, spent: real, remaining: real) {
    remaining >= 0.0 && (spent <= limit ==> spent + remaining == limit) && (spent >= limit ==> remaining == 0.0)
  }

  datatype Verdict = Verdict(allowed: bool, remainingDaily: real, remainingMonthly: real)

  /** Which of the queries of a check fail. */
  datatype Faults = Faults(row: bool, first: bool, second: bool)

  datatype QueryFailed = QueryFailed

  type Budgets = map<(string, string), Limits>

  /**
  Whether the agent check lets a request through: it finds no row, a query fails, or both windowed
  sums are within their limits.
  */
  predicate AgentLetThrough(budgets: Budgets, txs: seq<Transaction>, agentID: string, toolID: string, now: int,
                            start: Calendar, faults: Faults) {
    (agentID, toolID) !in budgets || faults.row || faults.first || faults.second ||
    (var limits, scope := budgets[(agentID, toolID)], AgentTool(agentID, toolID);
     Within(limits.daily, SpentSince(txs, scope, start(Day, now))) &&
     Within(limits.monthly, SpentSince(txs, scope, start(Month, now))))
  }

  /** The same for the check of a tool's total. */
  predicate ToolLetThrough(tools: map<string, ToolLimit>, txs: seq<Transaction>, toolID: string, now: int,
                           start: Calendar, faults: Faults) {
    toolID !in tools || faults.row || (tools[toolID].limit != 0.0 && faults.first) ||
    ToolWithin(tools[toolID].limit, SpentSince(txs, WholeTool(toolID), start(PeriodOf(tools[toolID].window), now)))
  }

  /** What is left of a limit, and zero when it is used up. */
  function Left(limit: real, spent: real): real {
    if spent <= limit then limit - spent else 0.0
  }

  /** The answer of the agent check. */
  function AgentAnswer(budgets: Budgets, txs: seq<Transaction>, agentID: string, toolID: string, now: int,
                       start: Calendar, faults: Faults): Result<Verdict, QueryFailed> {
    if (agentID, toolID) !in budgets || faults.row || faults.first || faults.second then Err(QueryFailed)
    else
      var limits, scope := budgets[(agentID, toolID)], AgentTool(agentID, toolID);
      var daily, monthly := SpentSince(txs, scope, start(Day, now)), SpentSince(txs, scope, start(Month, now));
      Ok(Verdict(Within(limits.daily, daily) && Within(limits.monthly, monthly),
                 if limits.daily > 0.0 then Left(limits.daily, daily) else 0.0,
                 if limits.monthly > 0.0 then Left(limits.monthly, monthly) else 0.0))
  }

  /** The answer of the check of a tool's total: whether it allows the request, and what remains. */
  function ToolAnswer(tools: map<string, ToolLimit>, txs: seq<Transaction>, toolID: string, now: int,
                      start: Calendar, faults: Faults): Result<(bool, real), QueryFailed> {
    if toolID !in tools || faults.row || (tools[toolID].limit != 0.0 && faults.first) then Err(QueryFailed)
    else
      var limit, period := tools[toolID].limit, PeriodOf(tools[toolID].window);
      var spent := SpentSince(txs, WholeTool(toolID), start(period, now));
      Ok((ToolWithin(limit, spent), if limit == 0.0 then 0.0 else Left(limit, spent)))
  }

  /**
  Setting the limits of one agent on one tool makes exactly those limits decide there, and leaves
  every other agent and tool as before.
  */
  lemma SetLimitsDecide(budgets: Budgets, agentID: string, toolID: string, limits: Limits, txs: seq<Transaction>,
                        a: string, t: string, now: int, start: Calendar)
    ensures var scope, after := AgentTool(a, t), budgets[(agentID, toolID) := limits];
            AgentLetThrough(after, txs, a, t, now, start, NO_FAULTS) <==>
            if (a, t) == (agentID, toolID)
            then Within(limits.daily, SpentSince(txs, scope, start(Day, now))) &&
                 Within(limits.monthly, SpentSince(txs, scope, start(Month, now)))
            else AgentLetThrough(budgets, txs, a, t, now, start, NO_FAULTS)
  {
  }

  /** Deleting limits lifts them: the check then fails for want of a row, and lets everything through. */
  lemma DeletedLimitsLetThrough(budgets: Budgets, agentID: string, toolID: string, txs: seq<Transaction>,
                                a: string, t: string, now: int, start: Calendar, faults: Faults)
    ensures AgentLetThrough(budgets - {(agentID, toolID)}, txs, a, t, now, start, faults) <==>
            (a, t) == (agentID, toolID) || AgentLetThrough(budgets, txs, a, t, now, start, faults)
  {
  }

  const NO_FAULTS := Faults(false, false, false)

  class BudgetStore {
    var budgets: Budgets
    var tools: map<string, ToolLimit>
    var transactions: seq<Transaction>

    constructor ()
      ensures budgets == map[] && tools == map[] && transactions == []
    {
      budgets, tools, transactions := map[], map[], [];
    }

    /** Set and delete change one row of the budget table. */
    method Set(agentID: string, toolID: string, limits: Limits)
      modifies `budgets
      ensures budgets == old(budgets)[(agentID, toolID) := limits]
    {
      budgets := budgets[(agentID, toolID) := limits];
    }

    method Delete(agentID: string, toolID: string)
      modifies `budgets
      ensures budgets == old(budgets) - {(agentID, toolID)}
    {
      budgets := budgets - {(agentID, toolID)};
    }

    /**
    An error when the budget row is missing or a query fails; otherwise allowed exactly when both
    sums are within their limits, which is when every limit that limits has something left.
    */
    method CheckBudget(agentID: string, toolID: string, now: int, start: Calendar, faults: Faults)
      returns (r: Result<Verdict, QueryFailed>)
      ensures r == AgentAnswer(budgets, transactions, agentID, toolID, now, start, faults)
      ensures r.Err? <==> (agentID, toolID) !in budgets || faults.row || faults.first || faults.second
      ensures r.Err? || r.value.allowed <==> AgentLetThrough(budgets, transactions, agentID, toolID, now, start, faults)
      ensures r.Ok? ==>
                var limits := budgets[(agentID, toolID)];
                var daily := SpentSince(transactions, AgentTool(agentID, toolID), start(Day, now));
                var monthly := SpentSince(transactions, AgentTool(agentID, toolID), start(Month, now));
                && (r.value.allowed <==> (limits.daily > 0.0 ==> r.value.remainingDaily > 0.0) &&
                                         (limits.monthly > 0.0 ==> r.value.remainingMonthly > 0.0))
                && (if limits.daily > 0.0 then LeftOver(limits.daily, daily, r.value.remainingDaily)
                    else r.value.remainingDaily == 0.0)
                && (if limits.monthly > 0.0 then LeftOver(limits.monthly, monthly, r.value.remainingMonthly)
                    else r.value.remainingMonthly == 0.0)
    {
      if (agentID, toolID) !in budgets || faults.row { return Err(QueryFailed); }
      var budget := budgets[(agentID, toolID)];
      if faults.first { return Err(QueryFailed); }
      var dailySpend := SpentSince(transactions, AgentTool(agentID, toolID), start(Day, now));
      if faults.second { return Err(QueryFailed); }
      var monthlySpend := SpentSince(transactions, AgentTool(agentID, toolID), start(Month, now));
      var allowed, remainingDaily, remainingMonthly := true, 0.0, 0.0;
      if budget.daily > 0.0 {
        remainingDaily := budget.daily - dailySpend;
        if remainingDaily < 0.0 { remainingDaily := 0.0; }
        if dailySpend >= budget.daily { allowed := false; }
      }
      if budget.monthly > 0.0 {
        remainingMonthly := budget.monthly - monthlySpend;
        if remainingMonthly < 0.0 { remainingMonthly := 0.0; }
        if monthlySpend >= budget.monthly { allowed := false; }
      }
      return Ok(Verdict(allowed, remainingDaily, remainingMonthly));
    }

    /** The same for the total of a tool, over the window its row names; an unknown window is a month. */
    method CheckToolGlobalBudget(toolID: string, now: int, start: Calendar, faults: Faults)
      returns (r: Result<(bool, real), QueryFailed>)
      ensures r == ToolAnswer(tools, transactions, toolID, now, start, faults)
      ensures r.Err? <==> toolID !in tools || faults.row || (tools[toolID].limit != 0.0 && faults.first)
      ensures r.Err? || r.value.0 <==> ToolLetThrough(tools, transactions, toolID, now, start, faults)
      ensures r.Ok? ==>
                var limit := tools[toolID].limit;
                var spent := SpentSince(transactions, WholeTool(toolID), start(PeriodOf(tools[toolID].window), now));
                && (r.value.0 <==> limit == 0.0 || spent < limit)
                && (if limit == 0.0 then r.value.1 == 0.0 else LeftOver(limit, spent, r.value.1))
    {
      if toolID !in tools || faults.row { return Err(QueryFailed); }
      var budgetLimit := tools[toolID].limit;
      if budgetLimit == 0.0 { return Ok((true, 0.0)); }
      var windowStart;
      if tools[toolID].window == "daily" {
        windowStart := start(Day, now);
      } else if tools[toolID].window == "monthly" {
        windowStart := start(Month, now);
      } else {
        windowStart := start(Month, now);
      }
      if faults.first { return Err(QueryFailed); }
      var totalSpend := SpentSince(transactions, WholeTool(toolID), windowStart);
      var remaining := budgetLimit - totalSpend;
      if remaining < 0.0 { remaining := 0.0; }
      return Ok((totalSpend < budgetLimit, remaining));
    }
  }

  /**
  A negative limit never limits an agent.  For a tool it lets a request through only if some
  recorded cost is negative too.
  */
  lemma {:induction false} NegativeLimits(limit: real, txs: seq<Transaction>, s: Scope, since: int)
    requires limit < 0.0
    ensures Within(limit, SpentSince(txs, s, since))
    ensures ToolWithin(limit, SpentSince(txs, s, since)) ==> exists i :: 0 <= i < |txs| && txs[i].call.cost < 0.0
  {
    if forall i :: 0 <= i < |txs| ==> txs[i].call.cost >= 0.0 {
      WeighOrder(txs, (tx: Transaction) => 0.0, CostSince(s, since));
      WeighNothing(txs);
    }
  }

  lemma {:induction false} WeighNothing(txs: seq<Transaction>)
    ensures Weigh(txs, (tx: Transaction) => 0.0) == 0.0
  {
    if txs != [] { WeighNothing(txs[1..]); }
  }

  // ---------------------------------------------------------------- what counts towards a limit

  lemma WeighInserted(before: seq<Transaction>, tx: Transaction, after: seq<Transaction>, f: Transaction -> real)
    ensures Weigh(before + [tx] + after, f) == Weigh(before + after, f) + f(tx)
  {
    WeighAppend(before + [tx], after, f);
    WeighAppend(before, [tx], f);
    WeighAppend(before, after, f);
  }

  /** A sum of which every transaction of the scope comes too early is zero. */
  lemma {:induction false} NothingSpentSince(txs: seq<Transaction>, s: Scope, since: int)
    requires forall i :: 0 <= i < |txs| && Covers(s, txs[i]) ==> txs[i].timestamp < since
    ensures SpentSince(txs, s, since) == 0.0
  {
    if txs != [] { NothingSpentSince(txs[1..], s, since); }
  }

  /** What remains after one cost more: less by the cost, down to zero. */
  predicate LessBy(after: real, before: real, cost: real) {
    after == if before >= cost then before - cost else 0.0
  }

  /**
  What one more stored transaction, wherever it is stored, changes in the agent check.  If it is of
  another agent or another tool, or from before the month, nothing; if it is from before the day,
  nothing of the daily remainder; otherwise it lowers what remains by its cost, down to zero.
  */
  lemma AgentAnswerWithOneMore(budgets: Budgets, before: seq<Transaction>, tx: Transaction, after: seq<Transaction>,
                               agentID: string, toolID: string, now: int, start: Calendar, faults: Faults)
    ensures var r := AgentAnswer(budgets, before + after, agentID, toolID, now, start, faults);
            var r' := AgentAnswer(budgets, before + [tx] + after, agentID, toolID, now, start, faults);
            && (tx.call.agentID != agentID || tx.call.toolID != toolID ==> r' == r)
            && (tx.timestamp < start(Day, now) && tx.timestamp < start(Month, now) ==> r' == r)
            && (r.Ok? <==> r'.Ok?)
            && (r.Ok? && tx.timestamp < start(Day, now) ==> r'.value.remainingDaily == r.value.remainingDaily)
            && (r.Ok? && tx.timestamp < start(Month, now) ==> r'.value.remainingMonthly == r.value.remainingMonthly)
            && (r.Ok? && tx.call.agentID == agentID && tx.call.toolID == toolID && tx.call.cost >= 0.0 ==>
                  && (tx.timestamp >= start(Day, now) && budgets[(agentID, toolID)].daily > 0.0 ==>
                        LessBy(r'.value.remainingDaily, r.value.remainingDaily, tx.call.cost))
                  && (tx.timestamp >= start(Month, now) && budgets[(agentID, toolID)].monthly > 0.0 ==>
                        LessBy(r'.value.remainingMonthly, r.value.remainingMonthly, tx.call.cost)))
  {
    WeighInserted(before, tx, after, CostSince(AgentTool(agentID, toolID), start(Day, now)));
    WeighInserted(before, tx, after, CostSince(AgentTool(agentID, toolID), start(Month, now)));
  }

  /**
  While nothing of the agent on the tool is stored since the day began, all of a positive daily
  limit remains, and the monthly limit alone decides; since the month began, neither limit refuses.
  */
  lemma AgentWindowStartsAfresh(budgets: Budgets, txs: seq<Transaction>, agentID: string, toolID: string, now: int,
                                start: Calendar)
    requires (agentID, toolID) in budgets
    requires forall i :: 0 <= i < |txs| && txs[i].call.agentID == agentID && txs[i].call.toolID == toolID ==>
               txs[i].timestamp < start(Day, now)
    ensures var limits, r := budgets[(agentID, toolID)],
                             AgentAnswer(budgets, txs, agentID, toolID, now, start, NO_FAULTS);
            && r.Ok?
            && (limits.daily > 0.0 ==> r.value.remainingDaily == limits.daily)
            && (r.value.allowed <==> limits.monthly <= 0.0 || r.value.remainingMonthly > 0.0)
            && ((forall i :: 0 <= i < |txs| && txs[i].call.agentID == agentID && txs[i].call.toolID == toolID ==>
                   txs[i].timestamp < start(Month, now)) ==>
                r.value.allowed && (limits.monthly > 0.0 ==> r.value.remainingMonthly == limits.monthly))
  {
    NothingSpentSince(txs, AgentTool(agentID, toolID), start(Day, now));
    if forall i :: 0 <= i < |txs| && txs[i].call.agentID == agentID && txs[i].call.toolID == toolID ==>
         txs[i].timestamp < start(Month, now) {
      NothingSpentSince(txs, AgentTool(agentID, toolID), start(Month, now));
    }
  }

  /** The same of a tool's total, whoever spent it, over the window of its row. */
  lemma ToolAnswerWithOneMore(tools: map<string, ToolLimit>, before: seq<Transaction>, tx: Transaction,
                              after: seq<Transaction>, toolID: string, now: int, start: Calendar, faults: Faults)
    requires toolID in tools
    ensures var since := start(if tools[toolID].window == "daily" then Day else Month, now);
            var r := ToolAnswer(tools, before + after, toolID, now, start, faults);
            var r' := ToolAnswer(tools, before + [tx] + after, toolID, now, start, faults);
            && (tx.call.toolID != toolID || tx.timestamp < since ==> r' == r)
            && (r.Ok? <==> r'.Ok?)
            && (r.Ok? && tx.call.toolID == toolID && tx.timestamp >= since && tx.call.cost >= 0.0 ==>
                  tools[toolID].limit != 0.0 ==> LessBy(r'.value.1, r.value.1, tx.call.cost))
  {
    var since := start(PeriodOf(tools[toolID].window), now);
    WeighInserted(before, tx, after, CostSince(WholeTool(toolID), since));
  }

  /** While nothing on the tool is stored since its window began, all of its limit remains. */
  lemma ToolWindowStartsAfresh(tools: map<string, ToolLimit>, txs: seq<Transaction>, toolID: string, now: int,
                               start: Calendar)
    requires toolID in tools
    requires forall i :: 0 <= i < |txs| && txs[i].call.toolID == toolID ==>
               txs[i].timestamp < start(if tools[toolID].window == "daily" then Day else Month, now)
    ensures var r := ToolAnswer(tools, txs, toolID, now, start, NO_FAULTS);
            && r.Ok?
            && (r.value.0 <==> tools[toolID].limit >= 0.0)
            && (tools[toolID].limit >= 0.0 ==> r.value.1 == tools[toolID].limit)
  {
    NothingSpentSince(txs, WholeTool(toolID), start(PeriodOf(tools[toolID].window), now));
  }
}
