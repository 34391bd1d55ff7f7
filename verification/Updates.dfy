/**
The partial updates of the tool store and of the agent store: a SET clause for every given field,
placeholders numbered by a running index, the id last.
*/
module Updates {
  import opened Common
  import Registry
  import StoreListings

  datatype Column =
    | Name | Description | Mode | Endpoint | AuthType | AuthConfig | Variables
    | PricingModel | PricingAmount | PricingCurrency | RateLimit | BudgetLimit | BudgetWindow
    | Team | UpdatedAt

  datatype Cell =
    | Words(text: string)
    | Pairs(pairs: map<string, string>)
    | Amount(amount: real)
    | Whole(whole: int)
    | Moment(at: int)

  /** A column to set, and the placeholder of its value. */
  datatype Clause = Clause(column: Column, slot: int)

  /** UPDATE .. SET clauses WHERE id = $idSlot. */
  datatype Update = Update(clauses: seq<Clause>, args: seq<Cell>, idSlot: int)

  /** What a statement makes of a column: the argument of its clause, if there is one. */
  function Assigned(clauses: seq<Clause>, args: seq<Cell>, column: Column): Option<Cell> {
    if clauses == [] then None
    else
      var last := clauses[|clauses| - 1];
      if last.column == column && 1 <= last.slot <= |args| then Some(args[last.slot - 1])
      else Assigned(clauses[..|clauses| - 1], args, column)
  }

  /** The fields of an input in the order they are looked at; those that are not given are absent. */
  type Fields = seq<(Column, Option<Cell>)>

  predicate DistinctColumns(fs: Fields) {
    forall i, j :: 0 <= i < j < |fs| ==> fs[i].0 != fs[j].0
  }

  function Given(fs: Fields, column: Column): Option<Cell> {
    if fs == [] then None
    else if fs[|fs| - 1].0 == column then fs[|fs| - 1].1
    else Given(fs[..|fs| - 1], column)
  }

  /** The clauses and arguments of the fields that are given, numbered from one. */
  function ClausesOf(fs: Fields): (cs: (seq<Clause>, seq<Cell>))
    ensures |cs.0| == |cs.1|
  {
    if fs == [] then ([], [])
    else
      var (clauses, args) := ClausesOf(fs[..|fs| - 1]);
      match fs[|fs| - 1].1
      case None => (clauses, args)
      case Some(cell) => (clauses + [Clause(fs[|fs| - 1].0, |args| + 1)], args + [cell])
  }

  /** Clause k has placeholder $k+1. */
  predicate Numbered(clauses: seq<Clause>) {
    forall k :: 0 <= k < |clauses| ==> clauses[k].slot == k + 1
  }

  lemma {:induction false} ClausesNumbered(fs: Fields)
    ensures Numbered(ClausesOf(fs).0)
  {
    if fs != [] { ClausesNumbered(fs[..|fs| - 1]); }
  }

  /** Arguments appended later do not disturb the clauses already written. */
  lemma {:induction false} AssignedMore(clauses: seq<Clause>, args: seq<Cell>, more: seq<Cell>, column: Column)
    requires forall k :: 0 <= k < |clauses| ==> 1 <= clauses[k].slot <= |args|
    ensures Assigned(clauses, args + more, column) == Assigned(clauses, args, column)
  {
    if clauses != [] { AssignedMore(clauses[..|clauses| - 1], args, more, column); }
  }

  lemma {:induction false} NotGiven(fs: Fields, column: Column)
    requires forall i :: 0 <= i < |fs| ==> fs[i].0 != column
    ensures Given(fs, column) == None
  {
    if fs != [] { NotGiven(fs[..|fs| - 1], column); }
  }

  /** The statement sets exactly the given columns, each to the given value. */
  lemma {:induction false} AssignsWhatIsGiven(fs: Fields, more: seq<Cell>, column: Column)
    requires DistinctColumns(fs)
    ensures Assigned(ClausesOf(fs).0, ClausesOf(fs).1 + more, column) == Given(fs, column)
  {
    if fs != [] {
      var front, last := fs[..|fs| - 1], fs[|fs| - 1];
      var (clauses, args) := ClausesOf(front);
      ClausesNumbered(front);
      match last.1
      case None =>
        AssignsWhatIsGiven(front, more, column);
        if last.0 == column { NotGiven(front, column); }
      case Some(cell) =>
        assert args + ([cell] + more) == (args + [cell]) + more;
        AssignsWhatIsGiven(front, [cell] + more, column);
        assert (clauses + [Clause(last.0, |args| + 1)])[..|clauses|] == clauses;
        assert ((args + [cell]) + more)[|args|] == cell;
    }
  }

  // ---------------------------------------------------------------- the compilers

  /** One field: nothing if it is absent, else a clause with the next placeholder. */
  method AddField(column: Column, cell: Option<Cell>, clauses0: seq<Clause>, args0: seq<Cell>, argIdx0: int,
                  ghost fs: Fields)
    returns (clauses: seq<Clause>, args: seq<Cell>, argIdx: int)
    requires (clauses0, args0) == ClausesOf(fs) && argIdx0 == |args0| + 1
    ensures (clauses, args) == ClausesOf(fs + [(column, cell)]) && argIdx == |args| + 1
  {
    clauses, args, argIdx := clauses0, args0, argIdx0;
    assert (fs + [(column, cell)])[..|fs|] == fs;
    if cell.Some? {
      clauses := clauses + [Clause(column, argIdx)];
      args := args + [cell.value];
      argIdx := argIdx + 1;
    }
  }

  function WordsOf(o: Option<string>): Option<Cell> {
    if o.Some? then Some(Words(o.value)) else None
  }

  function PairsOf(o: Option<map<string, string>>): Option<Cell> {
    if o.Some? then Some(Pairs(o.value)) else None
  }

  function AmountOf(o: Option<real>): Option<Cell> {
    if o.Some? then Some(Amount(o.value)) else None
  }

  function WholeOf(o: Option<int>): Option<Cell> {
    if o.Some? then Some(Whole(o.value)) else None
  }

  function TextFields(u: Registry.UpdateInput): Fields {
    [(Name, WordsOf(u.name)), (Description, WordsOf(u.description)), (Mode, WordsOf(u.mode)),
     (Endpoint, WordsOf(u.endpoint)), (AuthType, WordsOf(u.authType)),
     (AuthConfig, PairsOf(u.authConfig)), (Variables, PairsOf(u.variables))]
  }

  function PriceFields(u: Registry.UpdateInput): Fields {
    [(PricingModel, WordsOf(u.pricingModel)), (PricingAmount, AmountOf(u.pricingAmount)),
     (PricingCurrency, WordsOf(u.pricingCurrency))]
  }

  function LimitFields(u: Registry.UpdateInput): Fields {
    [(RateLimit, WholeOf(u.rateLimit)), (BudgetLimit, AmountOf(u.budgetLimit)),
     (BudgetWindow, WordsOf(u.budgetWindow))]
  }

  function ToolFields(u: Registry.UpdateInput): Fields {
    TextFields(u) + PriceFields(u) + LimitFields(u)
  }

  /** Three fields in a row. */
  method AddThree(three: Fields, clauses0: seq<Clause>, args0: seq<Cell>, argIdx0: int, ghost before: Fields)
    returns (clauses: seq<Clause>, args: seq<Cell>, argIdx: int)
    requires |three| == 3 && (clauses0, args0) == ClausesOf(before) && argIdx0 == |args0| + 1
    ensures (clauses, args) == ClausesOf(before + three) && argIdx == |args| + 1
  {
    ghost var one := before + [three[0]];
    ghost var two := one + [three[1]];
    clauses, args, argIdx := AddField(three[0].0, three[0].1, clauses0, args0, argIdx0, before);
    clauses, args, argIdx := AddField(three[1].0, three[1].1, clauses, args, argIdx, one);
    clauses, args, argIdx := AddField(three[2].0, three[2].1, clauses, args, argIdx, two);
    assert before + three == two + [three[2]];
  }

  method AddTextFields(u: Registry.UpdateInput) returns (clauses: seq<Clause>, args: seq<Cell>, argIdx: int)
    ensures (clauses, args) == ClausesOf(TextFields(u)) && argIdx == |args| + 1
  {
    ghost var fs := TextFields(u);
    var first := [(Name, WordsOf(u.name)), (Description, WordsOf(u.description)), (Mode, WordsOf(u.mode))];
    var second := [(Endpoint, WordsOf(u.endpoint)), (AuthType, WordsOf(u.authType)),
                   (AuthConfig, PairsOf(u.authConfig))];
    clauses, args, argIdx := AddThree(first, [], [], 1, []);
    clauses, args, argIdx := AddThree(second, clauses, args, argIdx, [] + first);
    clauses, args, argIdx := AddField(Variables, PairsOf(u.variables), clauses, args, argIdx, [] + first + second);
    assert fs == ([] + first + second) + [(Variables, PairsOf(u.variables))];
  }

  /** All fields, in the order of the columns. */
  method AddToolFields(u: Registry.UpdateInput) returns (clauses: seq<Clause>, args: seq<Cell>, argIdx: int)
    ensures (clauses, args) == ClausesOf(ToolFields(u)) && argIdx == |args| + 1
  {
    clauses, args, argIdx := AddTextFields(u);
    clauses, args, argIdx := AddThree(PriceFields(u), clauses, args, argIdx, TextFields(u));
    clauses, args, argIdx := AddThree(LimitFields(u), clauses, args, argIdx, TextFields(u) + PriceFields(u));
  }

  /** The columns of a stored tool. */
  function ToolCell(t: Registry.Tool, column: Column): Option<Cell> {
    match column
    case Name => Some(Words(t.name))
    case Description => Some(Words(t.description))
    case Mode => Some(Words(t.mode))
    case Endpoint => Some(Words(t.endpoint))
    case AuthType => Some(Words(t.authType))
    case AuthConfig => Some(Pairs(t.authConfig))
    case Variables => Some(Pairs(t.variables))
    case PricingModel => Some(Words(t.pricingModel))
    case PricingAmount => Some(Amount(t.pricingAmount))
    case PricingCurrency => Some(Words(t.pricingCurrency))
    case RateLimit => Some(Whole(t.rateLimit))
    case BudgetLimit => Some(Amount(t.budgetLimit))
    case BudgetWindow => Some(Words(t.budgetWindow))
    case Team => None
    case UpdatedAt => None
  }

  /** What a column holds after the statement: its assigned value, or what it held. */
  function After(stmt: Update, held: Option<Cell>, column: Column): Option<Cell> {
    match Assigned(stmt.clauses, stmt.args, column)
    case None => held
    case Some(cell) => Some(cell)
  }

  /** Placeholders $1 to $n in order, each with an argument of its own, and the id next. */
  predicate InOrder(stmt: Update) {
    Numbered(stmt.clauses) && |stmt.args| == |stmt.clauses| && stmt.idSlot == |stmt.args| + 1
  }

  predicate NothingGiven(fs: Fields) {
    forall i :: 0 <= i < |fs| ==> fs[i].1.None?
  }

  lemma {:induction false} NoClauses(fs: Fields)
    ensures ClausesOf(fs).0 == [] <==> NothingGiven(fs)
  {
    if fs != [] { NoClauses(fs[..|fs| - 1]); }
  }

  lemma {:induction false} GivenAt(fs: Fields, i: nat)
    requires DistinctColumns(fs) && i < |fs|
    ensures Given(fs, fs[i].0) == fs[i].1
  {
    if i < |fs| - 1 { GivenAt(fs[..|fs| - 1], i); }
  }

  /** The place of a column among the fields of a tool. */
  function PlaceOf(column: Column): nat {
    match column
    case Name => 0
    case Description => 1
    case Mode => 2
    case Endpoint => 3
    case AuthType => 4
    case AuthConfig => 5
    case Variables => 6
    case PricingModel => 7
    case PricingAmount => 8
    case PricingCurrency => 9
    case RateLimit => 10
    case BudgetLimit => 11
    case BudgetWindow => 12
    case Team => 13
    case UpdatedAt => 14
  }

  lemma ToolFieldsInPlace(u: Registry.UpdateInput)
    ensures |ToolFields(u)| == 13 && forall i :: 0 <= i < 13 ==> PlaceOf(ToolFields(u)[i].0) == i
    ensures DistinctColumns(ToolFields(u))
  {
    var fs := ToolFields(u);
    assert forall i :: 0 <= i < 13 ==> PlaceOf(fs[i].0) == i;
    forall i, j | 0 <= i < j < |fs| ensures fs[i].0 != fs[j].0 {
      assert PlaceOf(fs[i].0) == i && PlaceOf(fs[j].0) == j;
    }
  }

  /** Where a field is given the patched tool has it, and elsewhere what the tool had. */
  lemma GivenIsPatched(u: Registry.UpdateInput, t: Registry.Tool, column: Column)
    ensures var given := Given(ToolFields(u), column);
            ToolCell(Registry.Patched(t, u), column) == if given.Some? then given else ToolCell(t, column)
  {
    var fs := ToolFields(u);
    ToolFieldsInPlace(u);
    if column.Team? || column.UpdatedAt? {
      forall i | 0 <= i < |fs| ensures fs[i].0 != column { assert PlaceOf(fs[i].0) == i; }
      NotGiven(fs, column);
    } else {
      GivenAt(fs, PlaceOf(column));
      ColumnInPlace(u, column);
    }
  }

  lemma ColumnInPlace(u: Registry.UpdateInput, column: Column)
    requires !column.Team? && !column.UpdatedAt?
    ensures PlaceOf(column) < |ToolFields(u)| && ToolFields(u)[PlaceOf(column)].0 == column
  {
  }

  /** The statement turns the row of a tool into the row of the patched tool, and sets the time of the update. */
  ghost predicate Patches(stmt: Update, u: Registry.UpdateInput, now: int) {
    forall t, column ::
      After(stmt, ToolCell(t, column), column)
        == if column.UpdatedAt? then Some(Moment(now)) else ToolCell(Registry.Patched(t, u), column)
  }

  lemma FieldsPatch(u: Registry.UpdateInput, now: int, stmt: Update)
    requires (stmt.clauses, stmt.args) == ClausesOf(ToolFields(u) + [(UpdatedAt, Some(Moment(now)))])
    ensures Patches(stmt, u, now)
  {
    var fs := ToolFields(u) + [(UpdatedAt, Some(Moment(now)))];
    ToolFieldsInPlace(u);
    forall i, j | 0 <= i < j < |fs| ensures fs[i].0 != fs[j].0 {
      assert PlaceOf(fs[i].0) == i;
      if j < 13 { assert PlaceOf(fs[j].0) == j; }
    }
    forall t, column
      ensures After(stmt, ToolCell(t, column), column)
                == if column.UpdatedAt? then Some(Moment(now)) else ToolCell(Registry.Patched(t, u), column)
    {
      assert fs[..|fs| - 1] == ToolFields(u) && stmt.args + [] == stmt.args;
      AssignsWhatIsGiven(fs, [], column);
      GivenIsPatched(u, t, column);
    }
  }

  /** No statement when nothing is given; else one that patches the row of the tool. */
  method CompileToolUpdate(u: Registry.UpdateInput, now: int) returns (stmt: Option<Update>)
    ensures stmt.None? <==> NothingGiven(ToolFields(u))
    ensures stmt.Some? ==> InOrder(stmt.value) && Patches(stmt.value, u, now)
  {
    var clauses, args, argIdx := AddToolFields(u);
    NoClauses(ToolFields(u));
    if |clauses| == 0 {
      return None;
    }
    clauses, args, argIdx := AddField(UpdatedAt, Some(Moment(now)), clauses, args, argIdx, ToolFields(u));
    stmt := Some(Update(clauses, args, argIdx));
    ClausesNumbered(ToolFields(u) + [(UpdatedAt, Some(Moment(now)))]);
    FieldsPatch(u, now, stmt.value);
  }

  /** An update that gives nothing leaves the tool as it is. */
  lemma NothingPatches(u: Registry.UpdateInput, t: Registry.Tool)
    requires NothingGiven(ToolFields(u))
    ensures Registry.Patched(t, u) == t
  {
    var fs := ToolFields(u);
    assert fs[0].1.None? && fs[1].1.None? && fs[2].1.None? && fs[3].1.None? && fs[4].1.None? && fs[5].1.None?;
    assert fs[6].1.None? && fs[7].1.None? && fs[8].1.None? && fs[9].1.None? && fs[10].1.None?;
    assert fs[11].1.None? && fs[12].1.None?;
  }

  // ---------------------------------------------------------------- agents

  datatype AgentInput = AgentInput(name: Option<string>, team: Option<string>, rateLimit: Option<int>)

  function AgentFields(u: AgentInput): Fields {
    [(Name, WordsOf(u.name)), (Team, WordsOf(u.team)), (RateLimit, WholeOf(u.rateLimit))]
  }

  function PatchedAgent(a: StoreListings.AgentData, u: AgentInput): StoreListings.AgentData {
    StoreListings.AgentData(Registry.GetOr(u.name, a.name), Registry.GetOr(u.team, a.team),
                            Registry.GetOr(u.rateLimit, a.rateLimit))
  }

  function AgentCell(a: StoreListings.AgentData, column: Column): Option<Cell> {
    if column.Name? then Some(Words(a.name))
    else if column.Team? then Some(Words(a.team))
    else if column.RateLimit? then Some(Whole(a.rateLimit))
    else None
  }

  ghost predicate PatchesAgent(stmt: Update, u: AgentInput) {
    forall a, column :: After(stmt, AgentCell(a, column), column) == AgentCell(PatchedAgent(a, u), column)
  }

  lemma AgentFieldsPatch(u: AgentInput, stmt: Update)
    requires (stmt.clauses, stmt.args) == ClausesOf(AgentFields(u))
    ensures PatchesAgent(stmt, u)
  {
    var fs := AgentFields(u);
    forall a, column ensures After(stmt, AgentCell(a, column), column) == AgentCell(PatchedAgent(a, u), column) {
      assert stmt.args + [] == stmt.args;
      AssignsWhatIsGiven(fs, [], column);
      if column.Name? { GivenAt(fs, 0); }
      else if column.Team? { GivenAt(fs, 1); }
      else if column.RateLimit? { GivenAt(fs, 2); }
      else { NotGiven(fs, column); }
    }
  }

  /** The same for an agent; no time of the update is kept. */
  method CompileAgentUpdate(u: AgentInput) returns (stmt: Option<Update>)
    ensures stmt.None? <==> NothingGiven(AgentFields(u))
    ensures stmt.Some? ==> InOrder(stmt.value) && PatchesAgent(stmt.value, u)
  {
    ghost var fs := AgentFields(u);
    var clauses, args, argIdx := AddField(Name, WordsOf(u.name), [], [], 1, []);
    assert fs[..1] == [] + [fs[0]];
    clauses, args, argIdx := AddField(Team, WordsOf(u.team), clauses, args, argIdx, fs[..1]);
    assert fs[..2] == fs[..1] + [fs[1]];
    clauses, args, argIdx := AddField(RateLimit, WholeOf(u.rateLimit), clauses, args, argIdx, fs[..2]);
    assert fs == fs[..2] + [fs[2]];
    NoClauses(fs);
    if |clauses| == 0 {
      return None;
    }
    stmt := Some(Update(clauses, args, argIdx));
    ClausesNumbered(fs);
    AgentFieldsPatch(u, stmt.value);
  }
}
