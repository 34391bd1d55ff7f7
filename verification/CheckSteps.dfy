/**
The check steps of the protocol and the check methods of the budget store decide alike: a thread
whose check nothing interrupts goes on exactly when the method answers "allowed" or an error.  The
rows a check finds are those of agents and tools that exist.
*/
module CheckSteps {
  import opened Common
  import opened Metering
  import opened Budget
  import opened Protocol

  /** The row a check reads, unless there is none or its query fails. */
  function RowRead<K, V>(rows: map<K, V>, key: K, faults: Faults): Option<V> {
    if faults.row then None else Lookup(rows, key)
  }

  /** The steps of one agent check: a query is made only if those before it succeeded. */
  function AgentCheck(i: nat, req: Req, budgets: Budgets, faults: Faults): seq<Step> {
    var row := RowRead(budgets, (req.agentID, req.toolID), faults);
    [ReadBudget(i, req, row)] +
    (if row.None? then []
     else [ReadDaily(i, !faults.first)] + if faults.first then [] else [ReadMonthly(i, !faults.second)])
  }

  /** The steps of one check of a tool's total; a limit of zero needs no sum. */
  function ToolCheck(i: nat, req: Req, tools: map<string, ToolLimit>, faults: Faults): seq<Step> {
    var row := RowRead(tools, req.toolID, faults);
    [ReadTool(i, row)] + if row.None? || row.value.limit == 0.0 then [] else [ReadTotal(i, !faults.first)]
  }

  /**
  The steps lead to a state in which thread `i` is at `pc`, and nothing but the passed checks has
  changed besides.
  */
  ghost predicate Moves(c: Config, s: State, steps: seq<Step>, i: nat, pc: PC) {
    i < |s.threads| && Runnable(c, s, steps) && exists passed :: After(c, s, steps) == Move(s, i, pc, passed)
  }

  lemma MovesByStep(c: Config, s: State, st: Step, i: nat, pc: PC, passed: seq<Pass>)
    requires i < |s.threads| && Enabled(c, s, st) && Next(c, s, st) == Move(s, i, pc, passed)
    ensures Moves(c, s, [st], i, pc)
  {
    assert After(c, s, [st]) == After(c, Next(c, s, st), []);
  }

  lemma MovesOn(c: Config, s: State, st: Step, rest: seq<Step>, i: nat, pc: PC)
    requires Enabled(c, s, st) && Moves(c, Next(c, s, st), rest, i, pc)
    requires i < |s.threads| && exists mid, passed :: Next(c, s, st) == Move(s, i, mid, passed)
    ensures Moves(c, s, [st] + rest, i, pc)
  {
    var mid, first :| Next(c, s, st) == Move(s, i, mid, first);
    var second :| After(c, Next(c, s, st), rest) == Move(Next(c, s, st), i, pc, second);
    assert ([st] + rest)[1..] == rest;
    assert s.passes + first + second == s.passes + (first + second);
    assert After(c, s, [st] + rest) == Move(s, i, pc, first + second);
  }

  lemma SumsDecide(c: Config, s: State, i: nat, req: Req, budgets: Budgets, faults: Faults, limits: Limits)
    requires i < |s.threads| && s.threads[i] == GotBudget(req, s.now, limits) && !faults.row
    requires (req.agentID, req.toolID) in budgets && budgets[(req.agentID, req.toolID)] == limits
    ensures Moves(c, s,
                  [ReadDaily(i, !faults.first)] + (if faults.first then [] else [ReadMonthly(i, !faults.second)]), i,
                  if AgentLetThrough(budgets, Store(s), req.agentID, req.toolID, s.now, c.start, faults)
                  then AgentPassed(req) else Idle)
  {
    var daily := ReadDaily(i, !faults.first);
    var passed := CheckStep(c, s, daily);
    assert Next(c, s, daily) == Move(s, i, passed.0, passed.1);
    if faults.first {
      MovesByStep(c, s, daily, i, passed.0, passed.1);
      assert [daily] + [] == [daily];
    } else {
      var u, monthly := Next(c, s, daily), ReadMonthly(i, !faults.second);
      var last := CheckStep(c, u, monthly);
      assert Store(u) == Store(s) && u.now == s.now;
      MovesByStep(c, u, monthly, i, last.0, last.1);
      MovesOn(c, s, daily, [monthly], i, last.0);
    }
  }

  /** An agent check that nothing interrupts: on to the tool check exactly when the method lets the request through. */
  lemma AgentCheckDecides(c: Config, s: State, i: nat, req: Req, budgets: Budgets, faults: Faults)
    requires i < c.requests && i < |s.threads| && s.threads[i].Idle?
    requires (req.agentID, req.toolID) in budgets ==> HasOwners(s.gone, req.agentID, req.toolID)
    ensures Moves(c, s, AgentCheck(i, req, budgets, faults), i,
                  if AgentLetThrough(budgets, Store(s), req.agentID, req.toolID, s.now, c.start, faults)
                  then AgentPassed(req) else Idle)
  {
    var row := RowRead(budgets, (req.agentID, req.toolID), faults);
    var first := ReadBudget(i, req, row);
    var passed := CheckStep(c, s, first);
    assert Next(c, s, first) == Move(s, i, passed.0, passed.1);
    if row.None? {
      MovesByStep(c, s, first, i, passed.0, passed.1);
      assert [first] + [] == [first];
    } else {
      var u := Next(c, s, first);
      assert Store(u) == Store(s) && u.now == s.now;
      SumsDecide(c, u, i, req, budgets, faults, row.value);
      MovesOn(c, s, first, AgentCheck(i, req, budgets, faults)[1..], i,
              if AgentLetThrough(budgets, Store(s), req.agentID, req.toolID, s.now, c.start, faults)
              then AgentPassed(req) else Idle);
    }
  }

  /**
  A check of a tool's total that nothing interrupts: on to forwarding exactly when the method lets the
  request through.
  */
  lemma ToolCheckDecides(c: Config, s: State, i: nat, req: Req, tools: map<string, ToolLimit>, faults: Faults)
    requires i < |s.threads| && s.threads[i] == AgentPassed(req) &&
               (req.toolID in tools ==> Tool(req.toolID) !in s.gone)
    ensures Moves(c, s, ToolCheck(i, req, tools, faults), i,
                  if ToolLetThrough(tools, Store(s), req.toolID, s.now, c.start, faults) then Forwarding(req) else Idle)
  {
    var row := RowRead(tools, req.toolID, faults);
    var first := ReadTool(i, row);
    var passed := CheckStep(c, s, first);
    assert Next(c, s, first) == Move(s, i, passed.0, passed.1);
    if row.None? || row.value.limit == 0.0 {
      MovesByStep(c, s, first, i, passed.0, passed.1);
      assert [first] + [] == [first];
    } else {
      var u, second := Next(c, s, first), ReadTotal(i, !faults.first);
      var last := CheckStep(c, u, second);
      assert Store(u) == Store(s) && u.now == s.now;
      MovesByStep(c, u, second, i, last.0, last.1);
      MovesOn(c, s, first, [second], i, last.0);
    }
  }
}
