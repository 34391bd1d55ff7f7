/** The proxy handler: the gates a request passes in order, and the transaction it leaves. */
module Proxy {
  import opened Common
  import opened Budget
  import opened Metering
  import Registry
  import RegistryRaces
  import Template

  // ---------------------------------------------------------------- what a call costs

  /** The price of a call when the tool reports none. */
  function FlatCost(t: Registry.Tool): real {
    if t.pricingModel == "per_request" then t.pricingAmount else 0.0
  }

  /** A header that parses to a number that is not negative sets the cost. */
  predicate Reports(header: string, parse: string -> Option<real>, v: real) {
    header != "" && parse(header) == Some(v) && v >= 0.0
  }

  /**
  The charge of a call: the reported cost if there is one, otherwise the flat price.  The source
  says which, and is never empty.
  */
  method ChargedCost(t: Registry.Tool, header: string, parse: string -> Option<real>)
    returns (cost: real, costSource: string)
    ensures forall v :: Reports(header, parse, v) ==> cost == v && costSource == "reported"
    ensures (forall v :: !Reports(header, parse, v)) ==> cost == FlatCost(t) && costSource == "flat"
    ensures if header != "" && parse(header).Some? && parse(header).value >= 0.0
            then cost == parse(header).value && costSource == "reported"
            else cost == (if t.pricingModel == "per_request" then t.pricingAmount else 0.0) && costSource == "flat"
    ensures costSource == "reported" <==> exists v :: Reports(header, parse, v)
    ensures costSource != "" && (FlatCost(t) >= 0.0 ==> cost >= 0.0)
  {
    cost, costSource := 0.0, "flat";
    if header != "" {
      var parsed := parse(header);
      if parsed.Some? && parsed.value >= 0.0 {
        cost := parsed.value;
        costSource := "reported";
        assert Reports(header, parse, parsed.value);
      } else if t.pricingModel == "per_request" {
        cost := t.pricingAmount;
      }
    } else if t.pricingModel == "per_request" {
      cost := t.pricingAmount;
    }
  }

  // ---------------------------------------------------------------- the handler

  datatype Check = NotConfigured | Failed | Answered(allowed: bool)

  datatype Upstream = NoResponse | Response(status: int, reportedCost: string, size: int)

  datatype Agent = Agent(id: string, team: string)

  /** A request, and what everything it consults answers; `storedID` is the id of the tool row found. */
  datatype Request = Request(
    toolID: string, method_: string, path: string, contentLength: int, latencyMs: int, now: int,
    tool: Option<Registry.Tool>, storedID: string, agent: Option<Agent>,
    rate: Check, agentBudget: Check, toolBudget: Check,
    buildable: string -> bool, upstream: Upstream, parseCost: string -> Option<real>)

  datatype Reply = Reply(status: int, recorded: Option<Transaction>)

  /** A gate that may turn a request away with a status of its own. */
  datatype Gate = Gate(blocked: bool, status: int)

  predicate Refuses(c: Check) {
    c.Answered? && !c.allowed
  }

  function Endpoint(t: Registry.Tool): Result<string, string> {
    if t.mode == "api" then Template.Resolved(t.endpoint, t.variables) else Ok(t.endpoint)
  }

  /**
  The gates in order.  Checks that fail, or that are not configured, do not block; only an answer does.
  */
  function Gates(r: Request): seq<Gate> {
    var endpoint := if r.tool.Some? then Endpoint(r.tool.value) else Err("");
    [Gate(r.toolID == "", 400), Gate(r.tool.None?, 404), Gate(r.agent.None?, 401),
     Gate(Refuses(r.rate), 429), Gate(Refuses(r.agentBudget), 403), Gate(Refuses(r.toolBudget), 403),
     Gate(endpoint.Err?, 502), Gate(endpoint.Ok? && !r.buildable(endpoint.value), 502)]
  }

  predicate FirstBlocked(gates: seq<Gate>, k: int) {
    0 <= k < |gates| && gates[k].blocked && forall j :: 0 <= j < k ==> !gates[j].blocked
  }

  predicate AllOpen(gates: seq<Gate>) {
    forall j :: 0 <= j < |gates| ==> !gates[j].blocked
  }

  method RecordTransaction(r: Request, agentID: string, t: Registry.Tool, status: int, requestSize: int,
                           responseSize: int, success: bool, header: string) returns (tx: Transaction)
    ensures tx.timestamp == r.now && tx.call.agentID == agentID && tx.call.toolID == r.storedID
    ensures tx.call.method_ == r.method_ && tx.call.path == r.path && tx.call.latencyMs == r.latencyMs &&
              tx.call.error == ""
    ensures tx.call.statusCode == status && tx.call.success == success
    ensures tx.call.requestSize == requestSize && tx.call.responseSize == responseSize
    ensures forall v :: Reports(header, r.parseCost, v) ==> tx.call.cost == v && tx.call.costSource == "reported"
    ensures (forall v :: !Reports(header, r.parseCost, v)) ==>
              tx.call.cost == FlatCost(t) && tx.call.costSource == "flat"
    ensures tx.call.costSource != ""
  {
    var cost, costSource := ChargedCost(t, header, r.parseCost);
    tx := Transaction(r.now, Call(agentID, r.storedID, r.method_, r.path, status, r.latencyMs, requestSize,
                                  responseSize, success, cost, "", costSource));
  }

  /** What a forwarded request leaves behind. */
  ghost predicate Accounts(r: Request, t: Registry.Tool, agentID: string, tx: Transaction) {
    && tx.timestamp == r.now && tx.call.agentID == agentID && tx.call.toolID == r.storedID && tx.call.costSource != ""
    && tx.call.method_ == r.method_ && tx.call.path == r.path && tx.call.latencyMs == r.latencyMs && tx.call.error == ""
    && match r.upstream
       case NoResponse =>
         && tx.call.statusCode == 502 && !tx.call.success && tx.call.requestSize == 0 && tx.call.responseSize == 0
         && tx.call.cost == FlatCost(t) && tx.call.costSource == "flat"
       case Response(status, header, size) =>
         && tx.call.statusCode == status && (tx.call.success <==> 200 <= status < 300)
         && tx.call.requestSize == (if r.contentLength < 0 then 0 else r.contentLength) && tx.call.responseSize == size
         && (forall v :: Reports(header, r.parseCost, v) ==> tx.call.cost == v && tx.call.costSource == "reported")
         && ((forall v :: !Reports(header, r.parseCost, v)) ==>
             tx.call.cost == FlatCost(t) && tx.call.costSource == "flat")
  }

  /**
  The first blocked gate decides the reply and nothing is recorded; a request that meets no blocked
  gate is forwarded, and leaves exactly one transaction whether or not the upstream answers.
  */
  method ServeHTTP(r: Request) returns (reply: Reply)
    ensures forall k :: FirstBlocked(Gates(r), k) ==> reply == Reply(Gates(r)[k].status, None)
    ensures AllOpen(Gates(r)) ==>
              && r.tool.Some? && r.agent.Some? && reply.recorded.Some?
              && Accounts(r, r.tool.value, r.agent.value.id, reply.recorded.value)
              && reply.status == reply.recorded.value.call.statusCode
    ensures reply.recorded.Some? <==> AllOpen(Gates(r))
    ensures reply.recorded.Some? <==>
              && r.toolID != "" && r.tool.Some? && r.agent.Some?
              && r.rate != Answered(false) && r.agentBudget != Answered(false) && r.toolBudget != Answered(false)
              && (if r.tool.value.mode != "api" then r.buildable(r.tool.value.endpoint)
                  else match Template.Resolved(r.tool.value.endpoint, r.tool.value.variables)
                       case Err(_) => false
                       case Ok(url) => r.buildable(url))
    ensures reply.recorded.None? ==>
              reply.status ==
                if r.toolID == "" then 400
                else if r.tool.None? then 404
                else if r.agent.None? then 401
                else if r.rate == Answered(false) then 429
                else if r.agentBudget == Answered(false) || r.toolBudget == Answered(false) then 403
                else 502
  {
    ghost var gates := Gates(r);
    if r.toolID == "" { assert gates[0].blocked; return Reply(400, None); }
    if r.tool.None? { assert gates[1].blocked; return Reply(404, None); }
    if r.agent.None? { assert gates[2].blocked; return Reply(401, None); }
    var tool, agent := r.tool.value, r.agent.value;
    if r.rate.Answered? {
      if !r.rate.allowed { assert gates[3].blocked; return Reply(429, None); }
    }
    if r.agentBudget.Answered? && !r.agentBudget.allowed { assert gates[4].blocked; return Reply(403, None); }
    if r.toolBudget.Answered? && !r.toolBudget.allowed { assert gates[5].blocked; return Reply(403, None); }
    var endpoint := tool.endpoint;
    if tool.mode == "api" {
      var resolved := Template.ResolveTemplate(tool.endpoint, tool.variables);
      if resolved.Err? { assert gates[6].blocked; return Reply(502, None); }
      endpoint := resolved.value;
    }
    if !r.buildable(endpoint) { assert gates[7].blocked; return Reply(502, None); }
    match r.upstream {
      case NoResponse =>
        var tx := RecordTransaction(r, agent.id, tool, 502, 0, 0, false, "");
        return Reply(502, Some(tx));
      case Response(status, header, size) =>
        var requestSize := r.contentLength;
        if requestSize < 0 { requestSize := 0; }
        var success := status >= 200 && status < 300;
        var tx := RecordTransaction(r, agent.id, tool, status, requestSize, size, success, header);
        return Reply(status, Some(tx));
    }
  }

  /** A check of the budget store as the handler sees it. */
  function Answer<T>(r: Result<T, QueryFailed>, allowed: T -> bool): Check {
    match r
    case Err(_) => Failed
    case Ok(v) => Answered(allowed(v))
  }

  /**
  The handler with its two budget checks made on the store: a request is forwarded and recorded only
  if both let it through, and one that either of them stops is answered 403.
  */
  method ServeWithBudgets(request: Request, store: BudgetStore, checkedAt: int, start: Calendar, agentFaults: Faults,
                          toolFaults: Faults) returns (reply: Reply)
    ensures reply.recorded.Some? <==>
              && request.toolID != "" && request.tool.Some? && request.agent.Some? && request.rate != Answered(false)
              && AgentLetThrough(store.budgets, store.transactions, request.agent.value.id, request.storedID, checkedAt,
                                 start, agentFaults)
              && ToolLetThrough(store.tools, store.transactions, request.storedID, checkedAt, start, toolFaults)
              && (if request.tool.value.mode != "api" then request.buildable(request.tool.value.endpoint)
                  else match Template.Resolved(request.tool.value.endpoint, request.tool.value.variables)
                       case Err(_) => false
                       case Ok(url) => request.buildable(url))
    ensures request.toolID != "" && request.tool.Some? && request.agent.Some? && request.rate != Answered(false) ==>
              || reply == Reply(403, None)
              || (&& AgentLetThrough(store.budgets, store.transactions, request.agent.value.id, request.storedID,
                                     checkedAt, start, agentFaults)
                  && ToolLetThrough(store.tools, store.transactions, request.storedID, checkedAt, start, toolFaults))
  {
    if request.tool.None? || request.agent.None? {
      reply := ServeHTTP(request);
    } else {
      var agentID, toolID := request.agent.value.id, request.storedID;
      var agentCheck := store.CheckBudget(agentID, toolID, checkedAt, start, agentFaults);
      var toolCheck := store.CheckToolGlobalBudget(toolID, checkedAt, start, toolFaults);
      reply := ServeHTTP(request.(agentBudget := Answer(agentCheck, (v: Verdict) => v.allowed),
                                  toolBudget := Answer(toolCheck, (v: (bool, real)) => v.0)));
    }
  }

  /** A forwarded call is stored and read back with its own cost source. */
  lemma SourceSurvivesStorage(r: Request, t: Registry.Tool, agentID: string, tx: Transaction)
    requires Accounts(r, t, agentID, tx)
    ensures ReadRow(RowValues(tx)) == Some(tx)
  {
    assert SourceOf(tx.call) == tx.call.costSource;
  }

  /**
  Over every run of the registry from an empty one, each call one atomic step, a stored tool never
  blocks at the template gate.
  */
  lemma TemplateGateIsOpen(isUrl: Registry.UrlCheck, evs: seq<Registry.Event>, id: string, r: Request)
    requires id in Registry.After(map[], isUrl, evs) && r.tool == Some(Registry.After(map[], isUrl, evs)[id])
    ensures !Gates(r)[6].blocked
    ensures forall k :: FirstBlocked(Gates(r), k) ==> k != 6
  {
    Registry.StoredTemplatesResolve(map[], isUrl, evs);
  }

  /** The same over a run in which updates interleave, as long as each is still acceptable when it is written. */
  lemma {:induction false} TemplateGateIsOpenInSafeRuns(
    s: RegistryRaces.Shared, isUrl: Registry.UrlCheck, steps: seq<RegistryRaces.Step>, id: string, r: Request)
    requires RegistryRaces.AllGood(s.tools, isUrl) && RegistryRaces.PendingChecked(s, isUrl)
    requires RegistryRaces.SafeRun(s, isUrl, steps)
    requires id in RegistryRaces.After(s, isUrl, steps).tools &&
               r.tool == Some(RegistryRaces.After(s, isUrl, steps).tools[id])
    ensures !Gates(r)[6].blocked
    decreases |steps|
  {
    if steps != [] {
      RegistryRaces.StepGoodIff(s, isUrl, steps[0]);
      RegistryRaces.StepKeepsPendingChecked(s, isUrl, steps[0]);
      TemplateGateIsOpenInSafeRuns(RegistryRaces.Does(s, isUrl, steps[0]), isUrl, steps[1..], id, r);
    }
  }
}
