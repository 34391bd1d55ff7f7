/**
Endpoint templates: text with {placeholders}.  A placeholder is a brace, one to
sixty-four name characters and a closing brace, found leftmost first without
overlaps.
*/
module Template {
  import opened Common

  const MAX_NAME: nat := 64

  predicate IsNameChar(c: char) {
    'a' <= c <= 'z' || 'A' <= c <= 'Z' || '0' <= c <= '9' || c == '_' || c == '-'
  }

  predicate IsName(n: string) {
    1 <= |n| <= MAX_NAME && forall i :: 0 <= i < |n| ==> IsNameChar(n[i])
  }

  function Placeholder(name: string): string {
    "{" + name + "}"
  }

  /** How many name characters `s` starts with. */
  function RunLength(s: string): (n: nat)
    ensures n <= |s|
    ensures forall i :: 0 <= i < n ==> IsNameChar(s[i])
    ensures n < |s| ==> !IsNameChar(s[n])
  {
    if s == "" || !IsNameChar(s[0]) then 0 else 1 + RunLength(s[1..])
  }

  /** The name of the placeholder that `s` starts with, if it starts with one. */
  function MatchHead(s: string): Option<string> {
    if s == "" || s[0] != '{' then None
    else
      var n := RunLength(s[1..]);
      if 1 <= n <= MAX_NAME && n + 1 < |s| && s[n + 1] == '}' then Some(s[1..n + 1]) else None
  }

  lemma {:induction false} MatchHeadExact(s: string, name: string)
    ensures MatchHead(s) == Some(name) <==> IsName(name) && Placeholder(name) <= s
  {
    if IsName(name) && Placeholder(name) <= s {
      var n := RunLength(s[1..]);
      var p := Placeholder(name);
      assert s[..|p|] == p;
      assert s[0] == p[0] == '{' && s[|name| + 1] == p[|name| + 1] == '}';
      assert forall i :: 0 <= i < |name| ==> s[1..][i] == p[i + 1] == name[i];
      assert s[1..][|name|] == '}';
      assert n == |name|;
      assert s[1..n + 1] == name;
    }
    if MatchHead(s) == Some(name) {
      var p := Placeholder(name);
      assert forall i :: 0 <= i < |name| ==> name[i] == s[1..][i];
      assert s[..|p|] == p;
    }
  }

  /** Which texts are placeholders: one to sixty-four letters, digits, underscores and hyphens in braces. */
  lemma PlaceholdersAre(name: string)
    ensures MatchHead("{" + name + "}") == Some(name) <==>
            && 1 <= |name| <= 64
            && forall i :: 0 <= i < |name| ==>
                 || 'a' <= name[i] <= 'z' || 'A' <= name[i] <= 'Z' || '0' <= name[i] <= '9' || name[i] in {'_', '-'}
  {
    MatchHeadExact("{" + name + "}", name);
  }

  // ---------------------------------------------------------------- the parse

  datatype Segment = Lit(c: char) | Var(name: string)

  function Parse(s: string): seq<Segment>
    decreases |s|
  {
    if s == "" then []
    else
      match MatchHead(s)
      case Some(name) => [Var(name)] + Parse(s[|name| + 2..])
      case None => [Lit(s[0])] + Parse(s[1..])
  }

  function SegmentText(g: Segment): string {
    match g
    case Lit(c) => [c]
    case Var(name) => Placeholder(name)
  }

  function Text(gs: seq<Segment>): string {
    if gs == [] then "" else SegmentText(gs[0]) + Text(gs[1..])
  }

  /** A variable has a name that can stand in a placeholder; no placeholder starts where a literal does. */
  ghost predicate SegmentOk(g: Segment, text: string) {
    match g
    case Var(name) => IsName(name)
    case Lit(_) => forall name :: IsName(name) ==> !(Placeholder(name) <= text)
  }

  ghost predicate SegmentsOk(gs: seq<Segment>) {
    forall k :: 0 <= k < |gs| ==> SegmentOk(gs[k], Text(gs[k..]))
  }

  /**
  A leftmost parse of `s`: the segments spell `s`, each variable is a
  placeholder, and no placeholder starts at a literal.
  */
  ghost predicate LeftmostParse(s: string, gs: seq<Segment>) {
    Text(gs) == s && SegmentsOk(gs)
  }

  lemma SegmentsOkTail(gs: seq<Segment>)
    requires gs != []
    ensures SegmentsOk(gs) <==> SegmentOk(gs[0], Text(gs)) && SegmentsOk(gs[1..])
  {
    assert gs[0..] == gs;
    forall k | 0 <= k < |gs| - 1 ensures gs[1..][k] == gs[k + 1] && gs[1..][k..] == gs[k + 1..] {
    }
    if SegmentsOk(gs) {
      assert SegmentOk(gs[0], Text(gs[0..]));
      forall k | 0 <= k < |gs| - 1 ensures SegmentOk(gs[1..][k], Text(gs[1..][k..])) {
        assert SegmentOk(gs[k + 1], Text(gs[k + 1..]));
      }
    }
    if SegmentOk(gs[0], Text(gs)) && SegmentsOk(gs[1..]) {
      forall k | 0 <= k < |gs| ensures SegmentOk(gs[k], Text(gs[k..])) {
        if k > 0 { assert SegmentOk(gs[1..][k - 1], Text(gs[1..][k - 1..])); }
      }
    }
  }

  /** A text the matcher finds no placeholder in front of starts with none. */
  lemma NoMatchNoPlaceholder(s: string)
    requires MatchHead(s).None?
    ensures forall name :: IsName(name) ==> !(Placeholder(name) <= s)
  {
    forall name | IsName(name) ensures !(Placeholder(name) <= s) {
      MatchHeadExact(s, name);
    }
  }

  lemma PlaceholderFirst(s: string, name: string)
    requires MatchHead(s) == Some(name)
    ensures IsName(name) && |name| + 2 <= |s| && s == Placeholder(name) + s[|name| + 2..]
  {
    MatchHeadExact(s, name);
    assert s[..|name| + 2] == Placeholder(name);
  }

  lemma LeftmostCons(g: Segment, gs: seq<Segment>)
    requires SegmentOk(g, SegmentText(g) + Text(gs)) && SegmentsOk(gs)
    ensures LeftmostParse(SegmentText(g) + Text(gs), [g] + gs)
  {
    assert ([g] + gs)[1..] == gs;
    SegmentsOkTail([g] + gs);
  }

  lemma {:induction false} ParseIsLeftmost(s: string)
    ensures LeftmostParse(s, Parse(s))
    decreases |s|
  {
    if s == "" {
    } else if MatchHead(s).Some? {
      var name := MatchHead(s).value;
      PlaceholderFirst(s, name);
      ParseIsLeftmost(s[|name| + 2..]);
      LeftmostCons(Var(name), Parse(s[|name| + 2..]));
    } else {
      assert s == [s[0]] + s[1..];
      NoMatchNoPlaceholder(s);
      ParseIsLeftmost(s[1..]);
      LeftmostCons(Lit(s[0]), Parse(s[1..]));
    }
  }

  /** There is only one leftmost parse. */
  lemma {:induction false} LeftmostParseUnique(s: string, gs: seq<Segment>)
    requires LeftmostParse(s, gs)
    ensures gs == Parse(s)
    decreases |gs|
  {
    if gs != [] {
      var rest := gs[1..];
      var text := SegmentText(gs[0]);
      assert s[..|text|] == text && s[|text|..] == Text(rest);
      SegmentsOkTail(gs);
      LeftmostParseUnique(Text(rest), rest);
      ParseStarts(s, gs[0]);
      assert gs == [gs[0]] + rest;
    }
  }

  /** A segment that can stand in front of a text is what the parse starts with. */
  lemma ParseStarts(s: string, g: Segment)
    requires SegmentOk(g, s) && SegmentText(g) <= s
    ensures Parse(s) == [g] + Parse(s[|SegmentText(g)|..])
  {
    HeadMatches(s, g);
  }

  /** What the matcher finds in front of a text is what its leftmost parse starts with. */
  lemma HeadMatches(s: string, g: Segment)
    requires SegmentOk(g, s) && SegmentText(g) <= s
    ensures g.Var? ==> MatchHead(s) == Some(g.name)
    ensures g.Lit? ==> MatchHead(s) == None && s[0] == g.c
  {
    if g.Var? {
      MatchHeadExact(s, g.name);
    } else if MatchHead(s).Some? {
      MatchHeadExact(s, MatchHead(s).value);
    }
  }

  // ---------------------------------------------------------------- names

  /** The variable names of a parse, with repetitions. */
  function Names(gs: seq<Segment>): seq<string> {
    if gs == [] then []
    else if gs[0].Var? then [gs[0].name] + Names(gs[1..])
    else Names(gs[1..])
  }

  /** The distinct entries of `s`, each where it first occurs, leaving out those already seen. */
  function FirstsAfter(seen: set<string>, s: seq<string>): seq<string>
    decreases |s|
  {
    if s == [] then []
    else if s[0] in seen then FirstsAfter(seen, s[1..])
    else [s[0]] + FirstsAfter(seen + {s[0]}, s[1..])
  }

  function TemplateVars(tmpl: string): seq<string> {
    FirstsAfter({}, Names(Parse(tmpl)))
  }

  /** Where `x` first occurs in `s`; the length of `s` when it does not. */
  function FirstIndex(s: seq<string>, x: string): (k: nat)
    ensures k <= |s|
    ensures k < |s| ==> s[k] == x
    ensures forall i :: 0 <= i < k ==> s[i] != x
  {
    if s == [] || s[0] == x then 0 else 1 + FirstIndex(s[1..], x)
  }

  lemma {:induction false} FirstsFacts(seen: set<string>, s: seq<string>)
    ensures var r := FirstsAfter(seen, s);
            && (forall x :: x in r <==> x in s && x !in seen)
            && (forall i, j :: 0 <= i < j < |r| ==> FirstIndex(s, r[i]) < FirstIndex(s, r[j]))
    decreases |s|
  {
    if s != [] {
      var r := FirstsAfter(seen, s);
      if s[0] in seen {
        FirstsFacts(seen, s[1..]);
      } else {
        FirstsFacts(seen + {s[0]}, s[1..]);
      }
    }
  }

  /**
  The extracted names are the names of the parse, without repetition and in
  the order of their first occurrences.
  */
  lemma {:induction false} VarsFacts(tmpl: string)
    ensures var vs, ns := TemplateVars(tmpl), Names(Parse(tmpl));
            && (forall x :: x in vs <==> x in ns)
            && (forall i, j :: 0 <= i < j < |vs| ==> vs[i] != vs[j] && FirstIndex(ns, vs[i]) < FirstIndex(ns, vs[j]))
  {
    FirstsFacts({}, Names(Parse(tmpl)));
  }

  method ExtractTemplateVars(tmpl: string) returns (vars: seq<string>)
    ensures vars == TemplateVars(tmpl)
  {
    var seen: set<string> := {};
    vars := [];
    var rest := tmpl;
    while rest != ""
      invariant TemplateVars(tmpl) == vars + FirstsAfter(seen, Names(Parse(rest)))
      decreases |rest|
    {
      match MatchHead(rest) {
        case Some(name) =>
          assert Names(Parse(rest)) == [name] + Names(Parse(rest[|name| + 2..]));
          if name !in seen {
            seen := seen + {name};
            vars := vars + [name];
          }
          rest := rest[|name| + 2..];
        case None =>
          assert Names(Parse(rest)) == Names(Parse(rest[1..]));
          rest := rest[1..];
      }
    }
  }

  // ---------------------------------------------------------------- resolution

  type Vars = map<string, string>

  /** The text with every defined placeholder replaced, once, by its value. */
  function Render(gs: seq<Segment>, vars: Vars): string {
    if gs == [] then ""
    else
      (if gs[0].Var? && gs[0].name in vars then vars[gs[0].name] else SegmentText(gs[0]))
      + Render(gs[1..], vars)
  }

  /** The last name of the parse that is not defined. */
  function LastMissing(gs: seq<Segment>, vars: Vars): Option<string> {
    if gs == [] then None
    else
      var later := LastMissing(gs[1..], vars);
      if later.None? && gs[0].Var? && gs[0].name !in vars then Some(gs[0].name) else later
  }

  /** The resolved text, or the name reported as undefined. */
  function Resolved(tmpl: string, vars: Vars): Result<string, string> {
    match LastMissing(Parse(tmpl), vars)
    case Some(name) => Err(name)
    case None => Ok(Render(Parse(tmpl), vars))
  }

  lemma RenderOne(g: Segment, gs: seq<Segment>, vars: Vars)
    ensures Render([g] + gs, vars)
         == (if g.Var? && g.name in vars then vars[g.name] else SegmentText(g)) + Render(gs, vars)
    ensures LastMissing([g] + gs, vars)
         == (if LastMissing(gs, vars).None? && g.Var? && g.name !in vars then Some(g.name) else LastMissing(gs, vars))
    ensures Names([g] + gs) == (if g.Var? then [g.name] else []) + Names(gs)
  {
    assert ([g] + gs)[1..] == gs;
  }

  /** What scanning has found so far, combined with what the rest `gs` of the parse still holds. */
  ghost predicate ScanState(gs: seq<Segment>, rest: seq<Segment>, vars: Vars, result: string, missingVar: string) {
    && Render(gs, vars) == result + Render(rest, vars)
    && LastMissing(gs, vars) == (var m := LastMissing(rest, vars);
                                 if m.Some? then m else if missingVar == "" then None else Some(missingVar))
  }

  lemma ScanOne(gs: seq<Segment>, g: Segment, rest: seq<Segment>, vars: Vars, result: string, missingVar: string)
    requires ScanState(gs, [g] + rest, vars, result, missingVar)
    requires g.Var? ==> g.name != ""
    ensures g.Var? && g.name in vars ==> ScanState(gs, rest, vars, result + vars[g.name], missingVar)
    ensures g.Var? && g.name !in vars ==> ScanState(gs, rest, vars, result + SegmentText(g), g.name)
    ensures g.Lit? ==> ScanState(gs, rest, vars, result + SegmentText(g), missingVar)
  {
    RenderOne(g, rest, vars);
    var x := if g.Var? && g.name in vars then vars[g.name] else SegmentText(g);
    assert result + (x + Render(rest, vars)) == (result + x) + Render(rest, vars);
  }

  method ResolveTemplate(tmpl: string, vars: Vars) returns (r: Result<string, string>)
    ensures r == Resolved(tmpl, vars)
  {
    var missingVar := "";
    var result := "";
    var rest := tmpl;
    while rest != ""
      invariant ScanState(Parse(tmpl), Parse(rest), vars, result, missingVar)
      decreases |rest|
    {
      match MatchHead(rest) {
        case Some(name) =>
          MatchHeadExact(rest, name);
          ScanOne(Parse(tmpl), Var(name), Parse(rest[|name| + 2..]), vars, result, missingVar);
          if name in vars {
            result := result + vars[name];
          } else {
            missingVar := name;
            result := result + Placeholder(name);
          }
          rest := rest[|name| + 2..];
        case None =>
          ScanOne(Parse(tmpl), Lit(rest[0]), Parse(rest[1..]), vars, result, missingVar);
          result := result + [rest[0]];
          rest := rest[1..];
      }
    }
    assert Parse(rest) == [] && result + "" == result;
    if missingVar != "" {
      return Err(missingVar);
    }
    return Ok(result);
  }

  lemma {:induction false} MissingFacts(gs: seq<Segment>, vars: Vars)
    ensures LastMissing(gs, vars).None? <==> forall x :: x in Names(gs) ==> x in vars
    ensures var m := LastMissing(gs, vars); m.Some? ==> m.value in Names(gs) && m.value !in vars
  {
    if gs != [] { MissingFacts(gs[1..], vars); }
  }

  /** Resolution succeeds exactly when every extracted name is defined; otherwise it names one that is not. */
  lemma {:induction false} ResolvesIffDefined(tmpl: string, vars: Vars)
    ensures Resolved(tmpl, vars).Ok? <==> forall x :: x in TemplateVars(tmpl) ==> x in vars
    ensures Resolved(tmpl, vars).Err? ==>
              Resolved(tmpl, vars).error in TemplateVars(tmpl) && Resolved(tmpl, vars).error !in vars
  {
    MissingFacts(Parse(tmpl), vars);
    VarsFacts(tmpl);
  }

  lemma {:induction false} AgreeOnNames(gs: seq<Segment>, v1: Vars, v2: Vars)
    requires forall x :: x in Names(gs) ==> Lookup(v1, x) == Lookup(v2, x)
    ensures Render(gs, v1) == Render(gs, v2) && LastMissing(gs, v1) == LastMissing(gs, v2)
  {
    if gs != [] {
      assert forall x :: x in Names(gs[1..]) ==> x in Names(gs);
      if gs[0].Var? { assert Lookup(v1, gs[0].name) == Lookup(v2, gs[0].name); }
      AgreeOnNames(gs[1..], v1, v2);
    }
  }

  /** The result depends on the values of the extracted names only. */
  lemma {:induction false} DependsOnVarsOnly(tmpl: string, v1: Vars, v2: Vars)
    requires forall x :: x in TemplateVars(tmpl) ==> Lookup(v1, x) == Lookup(v2, x)
    ensures Resolved(tmpl, v1) == Resolved(tmpl, v2)
  {
    VarsFacts(tmpl);
    AgreeOnNames(Parse(tmpl), v1, v2);
  }

  lemma {:induction false} SelfRender(gs: seq<Segment>, vars: Vars)
    requires forall x :: x in Names(gs) ==> x in vars && vars[x] == Placeholder(x)
    ensures Render(gs, vars) == Text(gs)
  {
    if gs != [] {
      assert forall x :: x in Names(gs[1..]) ==> x in Names(gs);
      SelfRender(gs[1..], vars);
    }
  }

  /** Mapping each name to its own placeholder gives the template back. */
  lemma {:induction false} SelfSubstitution(tmpl: string, vars: Vars)
    requires forall x :: x in TemplateVars(tmpl) ==> x in vars && vars[x] == Placeholder(x)
    ensures Resolved(tmpl, vars) == Ok(tmpl)
  {
    VarsFacts(tmpl);
    ResolvesIffDefined(tmpl, vars);
    SelfRender(Parse(tmpl), vars);
    ParseIsLeftmost(tmpl);
  }

  // ---------------------------------------------------------------- resolving a result again

  lemma PlaceholderHead(name: string, rest: string)
    requires IsName(name)
    ensures Parse(Placeholder(name) + rest) == [Var(name)] + Parse(rest)
  {
    var s := Placeholder(name) + rest;
    MatchHeadExact(s, name);
    assert s[|name| + 2..] == rest;
  }

  function Lits(t: string): seq<Segment> {
    if t == "" then [] else [Lit(t[0])] + Lits(t[1..])
  }

  /** Without an opening brace no placeholder starts in `t`. */
  lemma {:induction false} ParseLits(t: string, rest: string)
    requires '{' !in t
    ensures Parse(t + rest) == Lits(t) + Parse(rest)
  {
    if t == "" {
      assert t + rest == rest;
    } else {
      assert t[0] in t;
      assert (t + rest)[1..] == t[1..] + rest;
      ParseLits(t[1..], rest);
      assert [Lit(t[0])] + (Lits(t[1..]) + Parse(rest)) == Lits(t) + Parse(rest);
    }
  }

  lemma {:induction false} RunLengthOf(p: string, rest: string)
    requires forall i :: 0 <= i < |p| ==> IsNameChar(p[i])
    requires rest != "" && !IsNameChar(rest[0])
    ensures RunLength(p + rest) == |p|
  {
    if p == "" {
      assert p + rest == rest;
    } else {
      assert (p + rest)[1..] == p[1..] + rest;
      RunLengthOf(p[1..], rest);
    }
  }

  lemma NoHead(p: string, rest: string)
    requires forall i :: 0 <= i < |p| ==> IsNameChar(p[i])
    requires rest != "" && !IsNameChar(rest[0]) && rest[0] != '}'
    ensures MatchHead("{" + (p + rest)) == None
  {
    var s := "{" + (p + rest);
    assert s[1..] == p + rest;
    RunLengthOf(p, rest);
    assert s[|p| + 1] == rest[0];
  }

  lemma JoinThree<T>(a: seq<T>, b: seq<T>, c: seq<T>)
    ensures (a + b) + c == a + (b + c)
  {
  }

  lemma ParseLit(c: char, t: string)
    requires MatchHead([c] + t) == None
    ensures Parse([c] + t) == [Lit(c)] + Parse(t)
  {
    assert ([c] + t)[1..] == t;
  }

  lemma LitsCons(c: char, t: string)
    ensures Lits([c] + t) == [Lit(c)] + Lits(t)
  {
    assert ([c] + t)[1..] == t;
  }

  /** An opening brace whose name characters are not followed by a closing one is a literal. */
  lemma OpenBraceIsLiteral(p: string, rest: string)
    requires forall i :: 0 <= i < |p| ==> IsNameChar(p[i])
    requires rest != "" && !IsNameChar(rest[0]) && rest[0] != '}'
    ensures Parse("{" + p + rest) == Lits("{" + p) + Parse(rest)
  {
    JoinThree("{", p, rest);
    NoHead(p, rest);
    ParseLit('{', p + rest);
    LitsCons('{', p);
    ParseLits(p, rest);
    JoinThree([Lit('{')], Lits(p), Parse(rest));
  }

  lemma {:induction false} RenderLits(t: string, gs: seq<Segment>, vars: Vars)
    ensures Render(Lits(t) + gs, vars) == t + Render(gs, vars)
    ensures LastMissing(Lits(t) + gs, vars) == LastMissing(gs, vars)
  {
    if t == "" {
      assert Lits(t) + gs == gs;
    } else {
      var rest := Lits(t[1..]) + gs;
      RenderLits(t[1..], gs, vars);
      RenderOne(Lit(t[0]), rest, vars);
      assert Lits(t) + gs == [Lit(t[0])] + rest;
      HeadAndTail(t, Render(gs, vars));
    }
  }

  lemma HeadAndTail(t: string, x: string)
    requires t != ""
    ensures [t[0]] + (t[1..] + x) == t + x
  {
    assert t == [t[0]] + t[1..];
  }

  /** A text is left alone by every resolution exactly when it holds no placeholder. */
  lemma {:induction false} StableIff(text: string)
    ensures (forall vars :: Resolved(text, vars) == Ok(text)) <==> TemplateVars(text) == []
  {
    VarsFacts(text);
    if TemplateVars(text) == [] {
      forall vars ensures Resolved(text, vars) == Ok(text) {
        SelfSubstitution(text, vars);
      }
    } else {
      assert TemplateVars(text)[0] in TemplateVars(text);
      ResolvesIffDefined(text, map[]);
      assert Resolved(text, map[]) != Ok(text);
    }
  }

  lemma {:induction false} RenderHasNoBrace(gs: seq<Segment>, vars: Vars)
    requires forall k :: 0 <= k < |gs| && gs[k].Lit? ==> gs[k].c != '{'
    requires forall x :: x in Names(gs) ==> x in vars && '{' !in vars[x]
    ensures '{' !in Render(gs, vars)
  {
    if gs != [] {
      assert forall x :: x in Names(gs[1..]) ==> x in Names(gs);
      RenderHasNoBrace(gs[1..], vars);
      assert gs[0].Var? ==> gs[0].name in Names(gs);
    }
  }

  /**
  When no brace is left over in the template and no value brings one in, resolving once is enough:
  the result holds no placeholder, and every further resolution returns it unchanged.
  */
  lemma {:induction false} ResultIsStable(tmpl: string, vars: Vars)
    requires forall k :: 0 <= k < |Parse(tmpl)| && Parse(tmpl)[k].Lit? ==> Parse(tmpl)[k].c != '{'
    requires forall x :: x in TemplateVars(tmpl) ==> x in vars && '{' !in vars[x]
    ensures Resolved(tmpl, vars).Ok? && TemplateVars(Resolved(tmpl, vars).value) == []
    ensures forall vars2 :: Resolved(Resolved(tmpl, vars).value, vars2) == Resolved(tmpl, vars)
  {
    VarsFacts(tmpl);
    ResolvesIffDefined(tmpl, vars);
    RenderHasNoBrace(Parse(tmpl), vars);
    var result := Resolved(tmpl, vars).value;
    ParseLits(result, "");
    assert result + "" == result && Lits(result) + Parse("") == Lits(result);
    LitsHaveNoNames(result);
    StableIff(result);
  }

  lemma {:induction false} LitsHaveNoNames(t: string)
    ensures Names(Lits(t)) == []
  {
    if t != "" { LitsHaveNoNames(t[1..]); }
  }

  /**
  A brace left over is enough to break that: for any value that, with the name characters around
  it, is itself a name, the result is a placeholder that was not in the template, and resolving
  again fails when that name is not defined.
  */
  lemma {:induction false} OnePassOnly(before: string, name: string, after: string, vars: Vars)
    requires IsName(name) && name in vars && IsName(before + vars[name] + after)
    ensures var tmpl, built := "{" + before + Placeholder(name) + after + "}", before + vars[name] + after;
            Resolved(tmpl, vars) == Ok(Placeholder(built)) &&
            (built !in vars ==> Resolved(Placeholder(built), vars) == Err(built))
  {
    var built := before + vars[name] + after;
    NestedResolves(before, name, after, vars);
    assert Placeholder(built) + "" == Placeholder(built);
    PlaceholderHead(built, "");
    RenderOne(Var(built), [], vars);
  }

  lemma PartsAreNames(before: string, value: string, after: string)
    requires IsName(before + value + after)
    ensures forall i :: 0 <= i < |before| ==> IsNameChar(before[i])
    ensures forall i :: 0 <= i < |after| ==> IsNameChar(after[i])
  {
    var built := before + value + after;
    forall i | 0 <= i < |before| ensures IsNameChar(before[i]) { assert built[i] == before[i]; }
    forall i | 0 <= i < |after| ensures IsNameChar(after[i]) {
      assert built[|before| + |value| + i] == after[i];
    }
  }

  lemma NestedParse(before: string, name: string, back: string)
    requires IsName(name) && '{' !in back
    requires forall i :: 0 <= i < |before| ==> IsNameChar(before[i])
    ensures Parse("{" + before + (Placeholder(name) + back)) == Lits("{" + before) + ([Var(name)] + Lits(back))
  {
    OpenBraceIsLiteral(before, Placeholder(name) + back);
    PlaceholderHead(name, back);
    ParseLits(back, "");
    assert back + "" == back && Lits(back) + Parse("") == Lits(back);
  }

  lemma NestedRender(front: string, name: string, back: string, vars: Vars)
    requires name in vars
    ensures Render(Lits(front) + ([Var(name)] + Lits(back)), vars) == front + (vars[name] + back)
    ensures LastMissing(Lits(front) + ([Var(name)] + Lits(back)), vars) == None
  {
    RenderLits(back, [], vars);
    assert Lits(back) + [] == Lits(back) && back + "" == back;
    RenderOne(Var(name), Lits(back), vars);
    RenderLits(front, [Var(name)] + Lits(back), vars);
  }

  lemma NestedResolves(before: string, name: string, after: string, vars: Vars)
    requires IsName(name) && name in vars && IsName(before + vars[name] + after)
    ensures Resolved("{" + before + Placeholder(name) + after + "}", vars) ==
              Ok(Placeholder(before + vars[name] + after))
  {
    var front, back := "{" + before, after + "}";
    PartsAreNames(before, vars[name], after);
    assert "{" + before + Placeholder(name) + after + "}" == front + (Placeholder(name) + back);
    NestedParse(before, name, back);
    NestedRender(front, name, back, vars);
    assert front + (vars[name] + back) == Placeholder(before + vars[name] + after);
  }
}
