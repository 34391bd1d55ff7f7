/**
Per-tool limits: one request debits every applicable scope of its tool (global,
team, agent) through the shared limiter, and reports the tightest of them.
*/
module ToolLimiter {
  import opened Common
  import TB = TokenBucket
  import opened LimiterRun
  import opened LimiterKeys
  import opened RateLimiter

  /** A scope that applies to a request, and its rate. */
  datatype ScopeRate = ScopeRate(scope: Scope, rate: int)

  /** A bucket to check: its key and the rate in effect. */
  datatype Check = Check(key: string, rate: int)

  /** What the rate store resolves for a tool, a team and an agent; zero means no limit. */
  datatype Rates = Rates(tool: int, team: int, agent: int)

  /** The three numbers reported in the response headers. */
  datatype Report = Report(limit: int, remaining: int, resetAt: int)

  datatype Verdict = Verdict(allowed: bool, report: Report)

  function Scopes(rates: Rates, tool: string, team: string, agent: string): (cs: seq<ScopeRate>)
    ensures forall i :: 0 <= i < |cs| ==> cs[i].rate > 0 && !cs[i].scope.AgentScope? && cs[i].scope.tool == tool
    ensures forall i, j :: 0 <= i < j < |cs| ==> cs[i].scope != cs[j].scope
    ensures (exists i :: 0 <= i < |cs| && cs[i] == ScopeRate(ToolScope(tool), rates.tool)) <==> rates.tool > 0
    ensures (exists i :: 0 <= i < |cs| && cs[i] == ScopeRate(TeamScope(tool, team), rates.team)) <==>
              rates.team > 0 && team != ""
    ensures (exists i :: 0 <= i < |cs| && cs[i] == ScopeRate(ToolAgentScope(tool, agent), rates.agent)) <==>
              rates.agent > 0
  {
    var a := if rates.tool > 0 then [ScopeRate(ToolScope(tool), rates.tool)] else [];
    var b := if rates.team > 0 && team != "" then [ScopeRate(TeamScope(tool, team), rates.team)] else [];
    var c := if rates.agent > 0 then [ScopeRate(ToolAgentScope(tool, agent), rates.agent)] else [];
    var cs := a + b + c;
    assert rates.tool > 0 ==> cs[0] == ScopeRate(ToolScope(tool), rates.tool);
    assert rates.team > 0 && team != "" ==> cs[|a|] == ScopeRate(TeamScope(tool, team), rates.team);
    assert rates.agent > 0 ==> cs[|a| + |b|] == ScopeRate(ToolAgentScope(tool, agent), rates.agent);
    cs
  }

  function Checks(rates: Rates, tool: string, team: string, agent: string): (cs: seq<Check>)
    ensures |cs| == |Scopes(rates, tool, team, agent)|
    ensures forall i :: 0 <= i < |cs| ==>
              cs[i] == Check(Key(Scopes(rates, tool, team, agent)[i].scope), Scopes(rates, tool, team, agent)[i].rate)
  {
    var ss := Scopes(rates, tool, team, agent);
    seq(|ss|, i requires 0 <= i < |ss| => Check(Key(ss[i].scope), ss[i].rate))
  }

  // ---------------------------------------------------------------- one request as limiter operations

  function Keys(cs: seq<Check>): (r: seq<string>)
    ensures |r| == |cs| && forall i :: 0 <= i < |cs| ==> r[i] == cs[i].key
  {
    seq(|cs|, i requires 0 <= i < |cs| => cs[i].key)
  }

  datatype Outcome = Outcome(bucket: TB.Bucket, admits: bool, report: Report)

  /** What scope `i` of a request does to its bucket, and what it answers. */
  type ScopeStep = (nat, Option<TB.Bucket>) -> Outcome

  /** Allow, then Status, at three clock readings. */
  function ScopeOutcome(w: int, rate: int, o: Option<TB.Bucket>, t: int, t1: int, t2: int): Outcome {
    var (b, a) := TB.Step(o, w, TB.Op(rate, t, true));
    var b1 := TB.Step(Some(b), w, TB.Op(rate, t1, false)).0;
    Outcome(b1, a, ReportOf(w, rate, b1, t2))
  }

  /** Readings 3i, 3i+1 and 3i+2 of the clock belong to scope `i`. */
  function AllowThenStatus(w: int, cs: seq<Check>, clock: nat -> int): ScopeStep {
    (i: nat, o: Option<TB.Bucket>) =>
      ScopeOutcome(w, if i < |cs| then cs[i].rate else 0, o, clock(3 * i), clock(3 * i + 1), clock(3 * i + 2))
  }

  /** The buckets after the first `n` checks of a request, and whether all of those admitted it. */
  function AfterChecks(m: Table, keys: seq<string>, f: ScopeStep, n: nat): (Table, bool)
    requires n <= |keys|
  {
    if n == 0 then (m, true)
    else
      var (m0, ok) := AfterChecks(m, keys, f, n - 1);
      var o := f(n - 1, Lookup(m0, keys[n - 1]));
      (m0[keys[n - 1] := o.bucket], ok && o.admits)
  }

  predicate Distinct(keys: seq<string>) {
    forall i, j :: 0 <= i < j < |keys| ==> keys[i] != keys[j]
  }

  predicate Checkable(cs: seq<Check>) {
    Distinct(Keys(cs)) && forall i :: 0 <= i < |cs| ==> cs[i].rate > 0
  }

  lemma {:induction false} ChecksHaveDistinctKeys(rates: Rates, tool: string, team: string, agent: string)
    ensures Checkable(Checks(rates, tool, team, agent))
  {
    var ss := Scopes(rates, tool, team, agent);
    forall i, j | 0 <= i < j < |ss|
      ensures Key(ss[i].scope) != Key(ss[j].scope)
    {
      SameToolKeys(ss[i].scope, ss[j].scope);
    }
  }

  /** Two scopes of one tool never share a bucket, whatever the tool's ID looks like. */
  lemma {:induction false} SameToolKeys(s1: Scope, s2: Scope)
    requires !s1.AgentScope? && !s2.AgentScope? && s1.tool == s2.tool
    ensures Key(s1) == Key(s2) ==> s1 == s2
  {
    KeyParts(s1);
    KeyParts(s2);
    if Key(s1) == Key(s2) {
      StripPrefix("tool:", s1.tool + Tail(s1), s2.tool + Tail(s2));
      StripPrefix(s1.tool, Tail(s1), Tail(s2));
      TailInjective(s1, s2);
    }
  }

  /** `m'` is `m` with the first `n` keys charged by their own scopes alone, `ok` that all of those admit. */
  ghost predicate ScopesCharged(m: Table, m': Table, ok: bool, keys: seq<string>, f: ScopeStep, n: nat)
    requires n <= |keys|
  {
    && (ok <==> forall i :: 0 <= i < n ==> f(i, Lookup(m, keys[i])).admits)
    && (forall i :: 0 <= i < n ==> Lookup(m', keys[i]) == Some(f(i, Lookup(m, keys[i])).bucket))
    && (forall k :: k !in keys[..n] ==> Lookup(m', k) == Lookup(m, k))
  }

  lemma {:induction false} OtherKeysSame(m: Table, keys: seq<string>, f: ScopeStep, n: nat, k: string)
    requires n <= |keys| && forall i :: 0 <= i < n ==> keys[i] != k
    ensures Lookup(AfterChecks(m, keys, f, n).0, k) == Lookup(m, k)
    decreases n
  {
    if n > 0 { OtherKeysSame(m, keys, f, n - 1, k); }
  }

  lemma {:induction false} ScopeCharged(m: Table, keys: seq<string>, f: ScopeStep, n: nat, i: nat)
    requires i < n <= |keys| && Distinct(keys)
    ensures Lookup(AfterChecks(m, keys, f, n).0, keys[i]) == Some(f(i, Lookup(m, keys[i])).bucket)
    decreases n
  {
    if i == n - 1 {
      OtherKeysSame(m, keys, f, i, keys[i]);
    } else {
      ScopeCharged(m, keys, f, n - 1, i);
    }
  }

  lemma {:induction false} AllMustAdmit(m: Table, keys: seq<string>, f: ScopeStep, n: nat)
    requires n <= |keys| && Distinct(keys)
    ensures AfterChecks(m, keys, f, n).1 <==> forall i :: 0 <= i < n ==> f(i, Lookup(m, keys[i])).admits
    decreases n
  {
    if n > 0 {
      AllMustAdmit(m, keys, f, n - 1);
      OtherKeysSame(m, keys, f, n - 1, keys[n - 1]);
    }
  }

  /**
  A request is admitted exactly when each scope alone would admit it; every
  scope's bucket is charged by its own answer, also when another scope refuses;
  no other bucket changes.
  */
  lemma {:induction false} EveryScopeAnswersAlone(m: Table, keys: seq<string>, f: ScopeStep, n: nat)
    requires n <= |keys| && Distinct(keys)
    ensures ScopesCharged(m, AfterChecks(m, keys, f, n).0, AfterChecks(m, keys, f, n).1, keys, f, n)
  {
    var m' := AfterChecks(m, keys, f, n).0;
    AllMustAdmit(m, keys, f, n);
    forall i | 0 <= i < n
      ensures Lookup(m', keys[i]) == Some(f(i, Lookup(m, keys[i])).bucket)
    {
      ScopeCharged(m, keys, f, n, i);
    }
    forall k | k !in keys[..n]
      ensures Lookup(m', k) == Lookup(m, k)
    {
      forall i | 0 <= i < n ensures keys[i] != k { assert keys[..n][i] == keys[i]; }
      OtherKeysSame(m, keys, f, n, k);
    }
  }

  /** Of the first `n` scopes, `i` has the least rate and is the first to have it. */
  predicate Tightest(cs: seq<Check>, n: nat, i: nat)
    requires n <= |cs|
  {
    && i < n
    && (forall j :: 0 <= j < i ==> cs[i].rate < cs[j].rate)
    && (forall j :: i <= j < n ==> cs[i].rate <= cs[j].rate)
  }

  lemma TightestOfOneMore(cs: seq<Check>, n: nat, i: nat)
    requires n < |cs|
    ensures n == 0 ==> Tightest(cs, 1, 0)
    ensures n > 0 && Tightest(cs, n, i) && cs[i].rate <= cs[n].rate ==> Tightest(cs, n + 1, i)
    ensures n > 0 && Tightest(cs, n, i) && cs[n].rate < cs[i].rate ==> Tightest(cs, n + 1, n)
  {
  }

  /** What a scope of rate `rate` reports when its bucket is `b` after its own charge. */
  function ReportOf(w: int, rate: int, b: TB.Bucket, later: int): Report {
    if w > 0 && b.rate > 0 then Report(rate, TB.Remaining(b, w), TB.ResetAt(b, w, later)) else Report(rate, 0, later)
  }

  /** The report kept after the first `n` checks, and the scope it came from. */
  function ReportAfter(m: Table, keys: seq<string>, f: ScopeStep, n: nat): (Report, nat)
    requires n <= |keys|
  {
    if n == 0 then (Report(0, 0, 0), 0)
    else
      var (report, tight) := ReportAfter(m, keys, f, n - 1);
      var r := f(n - 1, Lookup(AfterChecks(m, keys, f, n - 1).0, keys[n - 1])).report;
      if report.limit == 0 || r.limit < report.limit then (r, n - 1) else (report, tight)
  }

  /** Each scope reports its own rate as the limit. */
  ghost predicate ReportsRates(cs: seq<Check>, f: ScopeStep) {
    forall i: nat, o :: i < |cs| ==> f(i, o).report.limit == cs[i].rate
  }

  /** The report kept is that of the first scope with the least rate, from the buckets before the request. */
  lemma {:induction false} ReportIsTightest(m: Table, cs: seq<Check>, f: ScopeStep, n: nat)
    requires Checkable(cs) && ReportsRates(cs, f) && 0 < n <= |cs|
    ensures var (report, tight) := ReportAfter(m, Keys(cs), f, n);
            && Tightest(cs, n, tight) && report.limit == cs[tight].rate
            && report == f(tight, Lookup(m, Keys(cs)[tight])).report
  {
    var k, keys := n - 1, Keys(cs);
    var r := f(k, Lookup(m, keys[k])).report;
    var (report, tight) := ReportAfter(m, keys, f, k);
    ReportOfOneMore(m, cs, f, k);
    if k > 0 { ReportIsTightest(m, cs, f, k); }
    TightestOfOneMore(cs, k, tight);
  }

  lemma ReportOfOneMore(m: Table, cs: seq<Check>, f: ScopeStep, k: nat)
    requires Checkable(cs) && ReportsRates(cs, f) && k < |cs|
    ensures var (report, tight) := ReportAfter(m, Keys(cs), f, k);
            var r := f(k, Lookup(m, Keys(cs)[k])).report;
            r.limit == cs[k].rate &&
            ReportAfter(m, Keys(cs), f, k + 1)
              == if report.limit == 0 || r.limit < report.limit then (r, k) else (report, tight)
  {
    OtherKeysSame(m, Keys(cs), f, k, Keys(cs)[k]);
    assert f(k, Lookup(m, Keys(cs)[k])).report.limit == cs[k].rate;
  }

  /** The verdict on a request and what it leaves behind, from the buckets `m` before it. */
  ghost predicate VerdictBy(v: Verdict, m: Table, m': Table, cs: seq<Check>, f: ScopeStep) {
    && ScopesCharged(m, m', v.allowed, Keys(cs), f, |cs|)
    && (cs == [] ==> v == Verdict(true, Report(0, 0, 0)))
    && (cs != [] ==> exists i: nat :: Tightest(cs, |cs|, i) && v.report == f(i, Lookup(m, Keys(cs)[i])).report)
  }

  ghost predicate VerdictIs(v: Verdict, m: Table, m': Table, w: int, cs: seq<Check>, clock: nat -> int) {
    VerdictBy(v, m, m', cs, AllowThenStatus(w, cs, clock))
  }

  lemma NoChecksVerdict(m: Table, f: ScopeStep)
    ensures VerdictBy(Verdict(true, Report(0, 0, 0)), m, m, [], f)
  {
  }

  lemma StepsReportRates(w: int, cs: seq<Check>, clock: nat -> int)
    ensures ReportsRates(cs, AllowThenStatus(w, cs, clock))
  {
    forall i: nat, o | i < |cs| ensures AllowThenStatus(w, cs, clock)(i, o).report.limit == cs[i].rate {
      StepReportsRate(w, cs, clock, i, o);
    }
  }

  lemma StepReportsRate(w: int, cs: seq<Check>, clock: nat -> int, i: nat, o: Option<TB.Bucket>)
    requires i < |cs|
    ensures AllowThenStatus(w, cs, clock)(i, o).report.limit == cs[i].rate
  {
    assert AllowThenStatus(w, cs, clock)(i, o) ==
           ScopeOutcome(w, cs[i].rate, o, clock(3 * i), clock(3 * i + 1), clock(3 * i + 2));
  }

  lemma LoopIsVerdict(v: Verdict, m: Table, m': Table, cs: seq<Check>, f: ScopeStep)
    requires cs != [] && Checkable(cs) && ReportsRates(cs, f)
    requires (m', v.allowed) == AfterChecks(m, Keys(cs), f, |cs|) && v.report == ReportAfter(m, Keys(cs), f, |cs|).0
    ensures VerdictBy(v, m, m', cs, f)
  {
    EveryScopeAnswersAlone(m, Keys(cs), f, |cs|);
    ReportIsTightest(m, cs, f, |cs|);
  }

  ghost predicate Standing(m': Table, allowed: bool, report: Report, m: Table, keys: seq<string>, f: ScopeStep, n: nat)
    requires n <= |keys|
  {
    ((m', allowed), report) == (AfterChecks(m, keys, f, n), ReportAfter(m, keys, f, n).0)
  }

  class ToolRateLimiter {
    const limiter: Limiter

    constructor (limiter: Limiter)
      ensures this.limiter == limiter
    {
      this.limiter := limiter;
    }

    /** The two limiter calls made for check `i`. */
    method CheckScope(cs: seq<Check>, clock: nat -> int, i: nat)
      returns (a: bool, report: Report)
      requires limiter.Valid() && i < |cs| && cs[i].rate > 0
      modifies limiter`buckets, limiter`cells, limiter.cells
      ensures limiter.Valid() && fresh(limiter.cells - old(limiter.cells))
      ensures var f := AllowThenStatus(limiter.window, cs, clock);
              var o := f(i, Lookup(old(limiter.Contents()), cs[i].key));
              && a == o.admits && report == o.report && report.limit == cs[i].rate
              && limiter.Contents() == old(limiter.Contents())[cs[i].key := o.bucket]
    {
      var key := cs[i].key;
      a := limiter.Allow(key, cs[i].rate, clock(3 * i), clock(3 * i));
      var l, r, rst := limiter.Status(key, cs[i].rate, clock(3 * i + 1), clock(3 * i + 1), clock(3 * i + 2));
      report := Report(l, r, rst);
    }

    /** One turn of the loop over the checks. */
    method CheckNext(cs: seq<Check>, clock: nat -> int, i: nat, allowed: bool, report: Report, ghost m: Table,
                     ghost f: ScopeStep)
      returns (allowed': bool, report': Report)
      requires limiter.Valid() && i < |cs| && Checkable(cs) && f == AllowThenStatus(limiter.window, cs, clock)
      requires Standing(limiter.Contents(), allowed, report, m, Keys(cs), f, i)
      modifies limiter`buckets, limiter`cells, limiter.cells
      ensures limiter.Valid() && fresh(limiter.cells - old(limiter.cells))
      ensures Standing(limiter.Contents(), allowed', report', m, Keys(cs), f, i + 1)
    {
      allowed', report' := allowed, report;
      var a, r := CheckScope(cs, clock, i);
      if !a {
        allowed' := false;
      }
      if report.limit == 0 || r.limit < report.limit {
        report' := r;
      }
    }

    /** All checks of one request, in order; nothing stops at the first refusal. */
    method CheckAll(cs: seq<Check>, clock: nat -> int, ghost m: Table, ghost f: ScopeStep) returns (v: Verdict)
      requires limiter.Valid() && Checkable(cs)
      requires f == AllowThenStatus(limiter.window, cs, clock)
      requires m == limiter.Contents()
      modifies limiter`buckets, limiter`cells, limiter.cells
      ensures limiter.Valid() && fresh(limiter.cells - old(limiter.cells))
      ensures Standing(limiter.Contents(), v.allowed, v.report, m, Keys(cs), f, |cs|)
    {
      var allowed, report := true, Report(0, 0, 0);
      for i := 0 to |cs|
        invariant limiter.Valid() && fresh(limiter.cells - old(limiter.cells))
        invariant Standing(limiter.Contents(), allowed, report, m, Keys(cs), f, i)
      {
        allowed, report := CheckNext(cs, clock, i, allowed, report, m, f);
      }
      v := Verdict(allowed, report);
    }

    /** The scopes that apply to a request, in order. */
    method ApplicableChecks(rates: Rates, tool: string, team: string, agent: string) returns (cs: seq<Check>)
      ensures cs == Checks(rates, tool, team, agent)
    {
      cs := [];
      if rates.tool > 0 {
        cs := cs + [Check("tool:" + tool, rates.tool)];
      }
      if rates.team > 0 && team != "" {
        cs := cs + [Check("tool:" + tool + ":team:" + team, rates.team)];
      }
      if rates.agent > 0 {
        cs := cs + [Check("tool:" + tool + ":agent:" + agent, rates.agent)];
      }
    }

    method CheckScopes(cs: seq<Check>, clock: nat -> int) returns (v: Verdict)
      requires limiter.Valid()
      requires Checkable(cs)
      modifies limiter`buckets, limiter`cells, limiter.cells
      ensures limiter.Valid() && fresh(limiter.cells - old(limiter.cells))
      ensures VerdictBy(v, old(limiter.Contents()), limiter.Contents(), cs, AllowThenStatus(limiter.window, cs, clock))
    {
      ghost var m, f := limiter.Contents(), AllowThenStatus(limiter.window, cs, clock);
      if |cs| == 0 {
        NoChecksVerdict(m, f);
        return Verdict(true, Report(0, 0, 0));
      }
      v := CheckAll(cs, clock, m, f);
      StepsReportRates(limiter.window, cs, clock);
      LoopIsVerdict(v, m, limiter.Contents(), cs, f);
    }

    method CheckResolved(rates: Rates, tool: string, team: string, agent: string, clock: nat -> int)
      returns (v: Verdict)
      requires limiter.Valid()
      modifies limiter`buckets, limiter`cells, limiter.cells
      ensures limiter.Valid() && fresh(limiter.cells - old(limiter.cells))
      ensures VerdictIs(v, old(limiter.Contents()), limiter.Contents(), limiter.window,
                        Checks(rates, tool, team, agent), clock)
    {
      if rates.tool == 0 && rates.team == 0 && rates.agent == 0 {
        NoChecksVerdict(limiter.Contents(), AllowThenStatus(limiter.window, [], clock));
        return Verdict(true, Report(0, 0, 0));
      }
      var cs := ApplicableChecks(rates, tool, team, agent);
      ChecksHaveDistinctKeys(rates, tool, team, agent);
      v := CheckScopes(cs, clock);
    }

    method CheckToolRateLimit(resolved: Result<Rates, string>, tool: string, team: string, agent: string,
                              clock: nat -> int)
      returns (res: Result<Verdict, string>)
      requires limiter.Valid()
      modifies limiter`buckets, limiter`cells, limiter.cells
      ensures limiter.Valid() && fresh(limiter.cells - old(limiter.cells))
      ensures resolved.Err? ==> res == Err(resolved.error) && limiter.Contents() == old(limiter.Contents())
      ensures resolved.Ok? ==> res.Ok?
      ensures resolved.Ok? ==> VerdictIs(res.value, old(limiter.Contents()), limiter.Contents(), limiter.window,
                                         Checks(resolved.value, tool, team, agent), clock)
    {
      if resolved.Err? {
        return Err(resolved.error);
      }
      var v := CheckResolved(resolved.value, tool, team, agent, clock);
      return Ok(v);
    }
  }
}
