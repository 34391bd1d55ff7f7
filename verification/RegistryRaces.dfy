/**
Updates that interleave.  The service validates an update against the row it reads and writes the
row in a second query, so other writes can come in between.
*/
module RegistryRaces {
  import opened Common
  import opened Template
  import opened Registry

  /** An update that was validated and is yet to be written. */
  datatype Pending = Pending(id: string, update: UpdateInput)

  datatype Shared = Shared(tools: Tools, pending: seq<Pending>)

  /** A create or a delete writes once; an update is validated in one step and written in another. */
  datatype Step =
    | Create(id: string, create: CreateInput)
    | Validate(id: string, update: UpdateInput)
    | Write(j: nat)
    | Delete(id: string)

  function Does(s: Shared, isUrl: UrlCheck, st: Step): Shared {
    match st
    case Create(id, i) => s.(tools := Next(s.tools, isUrl, CreateTool(id, i)))
    case Delete(id) => s.(tools := Next(s.tools, isUrl, DeleteTool(id)))
    case Validate(id, u) =>
      if Validated(s.tools, isUrl, id, u) then s.(pending := s.pending + [Pending(id, u)]) else s
    case Write(j) =>
      if j < |s.pending| then
        Shared(Written(s.tools, s.pending[j].id, s.pending[j].update), s.pending[..j] + s.pending[j + 1..])
      else s
  }

  function After(s: Shared, isUrl: UrlCheck, steps: seq<Step>): Shared
    decreases |steps|
  {
    if steps == [] then s else After(Does(s, isUrl, steps[0]), isUrl, steps[1..])
  }

  ghost predicate AllGood(m: Tools, isUrl: UrlCheck) {
    forall id :: id in m ==> GoodTool(isUrl, m[id])
  }

  /** Every pending update passed the checks that do not look at the row. */
  ghost predicate PendingChecked(s: Shared, isUrl: UrlCheck) {
    forall j :: 0 <= j < |s.pending| ==> CheckUpdate(isUrl, s.pending[j].update).None?
  }

  // ---------------------------------------------------------------- one write

  lemma {:induction false} BlankHasNoPlaceholder(text: string, vars: Vars)
    requires IsBlank(text)
    ensures Resolved(text, vars) == Ok(text)
  {
    forall i | 0 <= i < |text| ensures text[i] != '{' {
      assert IsSpace(text[i]);
    }
    ParseLits(text, "");
    assert text + "" == text && Lits(text) + Parse("") == Lits(text) + [];
    RenderLits(text, [], vars);
    assert text + "" == text;
  }

  /**
  Writing a pending update over a good row leaves a good row exactly when the update would be
  accepted against the row it is written over, not the one it was validated against.
  */
  lemma {:induction false} WriteKeepsGoodIff(isUrl: UrlCheck, t: Tool, u: UpdateInput)
    requires GoodTool(isUrl, t) && CheckUpdate(isUrl, u).None?
    ensures GoodTool(isUrl, Patched(t, u)) <==> Accepted(isUrl, t, u)
  {
    var endpoint, variables := GetOr(u.endpoint, t.endpoint), GetOr(u.variables, t.variables);
    if IsBlank(endpoint) { BlankHasNoPlaceholder(endpoint, variables); }
  }

  // ---------------------------------------------------------------- runs

  /** The write of this step is acceptable as the table stands. */
  predicate SafeStep(s: Shared, isUrl: UrlCheck, st: Step) {
    st.Write? && st.j < |s.pending| && s.pending[st.j].id in s.tools ==>
      Accepted(isUrl, s.tools[s.pending[st.j].id], s.pending[st.j].update)
  }

  predicate SafeRun(s: Shared, isUrl: UrlCheck, steps: seq<Step>)
    decreases |steps|
  {
    steps == [] || (SafeStep(s, isUrl, steps[0]) && SafeRun(Does(s, isUrl, steps[0]), isUrl, steps[1..]))
  }

  /** Every table of the run holds only good tools. */
  ghost predicate GoodThroughout(s: Shared, isUrl: UrlCheck, steps: seq<Step>)
    decreases |steps|
  {
    AllGood(s.tools, isUrl) && (steps == [] || GoodThroughout(Does(s, isUrl, steps[0]), isUrl, steps[1..]))
  }

  lemma StepKeepsPendingChecked(s: Shared, isUrl: UrlCheck, st: Step)
    requires PendingChecked(s, isUrl)
    ensures PendingChecked(Does(s, isUrl, st), isUrl)
  {
  }

  lemma {:induction false} StepGoodIff(s: Shared, isUrl: UrlCheck, st: Step)
    requires AllGood(s.tools, isUrl) && PendingChecked(s, isUrl)
    ensures AllGood(Does(s, isUrl, st).tools, isUrl) <==> SafeStep(s, isUrl, st)
  {
    match st
    case Create(id, i) => StepKeepsGood(s.tools, isUrl, CreateTool(id, i));
    case Delete(id) => StepKeepsGood(s.tools, isUrl, DeleteTool(id));
    case Validate(_, _) =>
    case Write(j) =>
      if j < |s.pending| && s.pending[j].id in s.tools {
        var id, u := s.pending[j].id, s.pending[j].update;
        WriteKeepsGoodIff(isUrl, s.tools[id], u);
        assert Does(s, isUrl, st).tools[id] == Patched(s.tools[id], u);
      }
  }

  /**
  Over every run in which updates interleave, every stored api tool resolves to a valid endpoint at
  all times exactly when every update is still acceptable at the moment it is written.
  */
  lemma {:induction false} InterleavedUpdatesIff(s: Shared, isUrl: UrlCheck, steps: seq<Step>)
    requires AllGood(s.tools, isUrl) && PendingChecked(s, isUrl)
    ensures GoodThroughout(s, isUrl, steps) <==> SafeRun(s, isUrl, steps)
    decreases |steps|
  {
    if steps != [] {
      StepGoodIff(s, isUrl, steps[0]);
      StepKeepsPendingChecked(s, isUrl, steps[0]);
      var t := Does(s, isUrl, steps[0]);
      if AllGood(t.tools, isUrl) { InterleavedUpdatesIff(t, isUrl, steps[1..]); }
    }
  }

  // ---------------------------------------------------------------- rows untouched while an update is pending

  /** What the validation of an update looks at. */
  predicate SameTemplate(a: Tool, b: Tool) {
    (a.mode, a.endpoint, a.variables) == (b.mode, b.endpoint, b.variables)
  }

  /** The step leaves alone what was looked at for every update that is still to be written. */
  predicate LeavesPending(s: Shared, isUrl: UrlCheck, st: Step) {
    st.Validate? ||
    var t := Does(s, isUrl, st);
    forall k :: 0 <= k < |t.pending| && t.pending[k].id in t.tools ==>
      t.pending[k].id in s.tools && SameTemplate(s.tools[t.pending[k].id], t.tools[t.pending[k].id])
  }

  predicate UntouchedRun(s: Shared, isUrl: UrlCheck, steps: seq<Step>)
    decreases |steps|
  {
    steps == [] || (LeavesPending(s, isUrl, steps[0]) && UntouchedRun(Does(s, isUrl, steps[0]), isUrl, steps[1..]))
  }

  /** Every pending update would be accepted as the table stands. */
  predicate PendingAcceptable(s: Shared, isUrl: UrlCheck) {
    forall j :: 0 <= j < |s.pending| && s.pending[j].id in s.tools ==>
      Accepted(isUrl, s.tools[s.pending[j].id], s.pending[j].update)
  }

  lemma StepKeepsAcceptable(s: Shared, isUrl: UrlCheck, st: Step)
    requires PendingAcceptable(s, isUrl) && LeavesPending(s, isUrl, st)
    ensures PendingAcceptable(Does(s, isUrl, st), isUrl)
  {
    var t := Does(s, isUrl, st);
    if !st.Validate? {
      forall k | 0 <= k < |t.pending| && t.pending[k].id in t.tools
        ensures Accepted(isUrl, t.tools[t.pending[k].id], t.pending[k].update)
      {
        var j := if st.Write? && st.j < |s.pending| && k >= st.j then k + 1 else k;
        assert t.pending[k] == s.pending[j];
      }
    }
  }

  /**
  An update whose row is left alone between its validation and its write is acceptable when it is
  written: a run in which that holds of every update is safe.
  */
  lemma {:induction false} UntouchedRunIsSafe(s: Shared, isUrl: UrlCheck, steps: seq<Step>)
    requires PendingAcceptable(s, isUrl) && UntouchedRun(s, isUrl, steps)
    ensures SafeRun(s, isUrl, steps)
    decreases |steps|
  {
    if steps != [] {
      StepKeepsAcceptable(s, isUrl, steps[0]);
      UntouchedRunIsSafe(Does(s, isUrl, steps[0]), isUrl, steps[1..]);
    }
  }

  // ---------------------------------------------------------------- two updates that race

  function NoChange(): UpdateInput {
    UpdateInput(None, None, None, None, None, None, None, None, None, None, None, None, None)
  }

  /** One update renames the variable of the endpoint, the other sets the old variable. */
  function Rename(b: string, x: string): UpdateInput {
    NoChange().(mode := Some("api"), endpoint := Some(Placeholder(b)), variables := Some(map[b := x]))
  }

  function SetOld(a: string, y: string): UpdateInput {
    NoChange().(variables := Some(map[a := y]))
  }

  lemma LoneVariable(name: string, value: string, vars: Vars)
    requires IsName(name)
    ensures name in vars && vars[name] == value ==> Resolved(Placeholder(name), vars) == Ok(value)
    ensures name !in vars ==> Resolved(Placeholder(name), vars) == Err(name)
  {
    assert Placeholder(name) + "" == Placeholder(name);
    PlaceholderHead(name, "");
    RenderOne(Var(name), [], vars);
    assert value + "" == value;
  }

  lemma PlaceholderNotBlank(name: string)
    ensures !IsBlank(Placeholder(name))
  {
    assert Placeholder(name)[0] == '{' && !IsSpace('{');
  }

  /**
  Both updates are accepted against the same row; written one after the other they leave an endpoint
  whose variable is no longer defined.
  */
  lemma {:induction false} RacedUpdates(isUrl: UrlCheck, t: Tool, a: string, b: string, x: string, y: string)
    requires IsName(a) && IsName(b) && a != b && ValidEndpoint(isUrl, x) && ValidEndpoint(isUrl, y)
    requires GoodTool(isUrl, t) && t.mode == "api" && t.endpoint == Placeholder(a) && t.variables == map[a := x]
    ensures Accepted(isUrl, t, Rename(b, x)) && Accepted(isUrl, t, SetOld(a, y))
    ensures var row := Patched(Patched(t, Rename(b, x)), SetOld(a, y));
            row.mode == "api" && Resolved(row.endpoint, row.variables) == Err(b)
  {
    PlaceholderNotBlank(a);
    PlaceholderNotBlank(b);
    LoneVariable(b, x, map[b := x]);
    LoneVariable(a, y, map[a := y]);
    LoneVariable(b, y, map[a := y]);
  }

  /** The same as a run: both are validated before either is written. */
  lemma {:induction false} RacedRun(isUrl: UrlCheck, t: Tool, id: string, a: string, b: string, x: string, y: string)
    requires IsName(a) && IsName(b) && a != b && ValidEndpoint(isUrl, x) && ValidEndpoint(isUrl, y)
    requires GoodTool(isUrl, t) && t.mode == "api" && t.endpoint == Placeholder(a) && t.variables == map[a := x]
    ensures var s := Shared(map[id := t], []);
            var s2 := Does(Does(s, isUrl, Validate(id, Rename(b, x))), isUrl, Validate(id, SetOld(a, y)));
            var s4 := Does(Does(s2, isUrl, Write(0)), isUrl, Write(0));
            id in s4.tools && s4.tools[id].mode == "api" &&
            Resolved(s4.tools[id].endpoint, s4.tools[id].variables) == Err(b)
  {
    RacedUpdates(isUrl, t, a, b, x, y);
    var s := Shared(map[id := t], []);
    var s1 := Does(s, isUrl, Validate(id, Rename(b, x)));
    assert s1 == Shared(s.tools, [Pending(id, Rename(b, x))]);
    var s2 := Does(s1, isUrl, Validate(id, SetOld(a, y)));
    assert s2 == Shared(s.tools, [Pending(id, Rename(b, x)), Pending(id, SetOld(a, y))]);
    var s3 := Does(s2, isUrl, Write(0));
    assert s3 == Shared(s.tools[id := Patched(t, Rename(b, x))], [Pending(id, SetOld(a, y))]);
    assert Does(s3, isUrl, Write(0)).tools[id] == Patched(Patched(t, Rename(b, x)), SetOld(a, y));
  }
}
