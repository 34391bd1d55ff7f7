/** The bucket keys of the four scopes that share one limiter. */
module LimiterKeys {

  datatype Scope =
    | AgentScope(agent: string)
    | ToolScope(tool: string)
    | TeamScope(tool: string, team: string)
    | ToolAgentScope(tool: string, agent: string)

  function Key(s: Scope): string {
    match s
    case AgentScope(a) => a
    case ToolScope(t) => "tool:" + t
    case TeamScope(t, team) => "tool:" + t + ":team:" + team
    case ToolAgentScope(t, a) => "tool:" + t + ":agent:" + a
  }

  /** Tool IDs hold no colon, and an agent's own key cannot pass for a tool key. */
  predicate Plain(s: Scope) {
    match s
    case AgentScope(a) => !("tool:" <= a)
    case ToolScope(t) => ':' !in t
    case TeamScope(t, _) => ':' !in t
    case ToolAgentScope(t, _) => ':' !in t
  }

  function Tail(s: Scope): string
    requires !s.AgentScope?
  {
    match s
    case ToolScope(_) => ""
    case TeamScope(_, team) => ":team:" + team
    case ToolAgentScope(_, a) => ":agent:" + a
  }

  lemma KeyParts(s: Scope)
    requires !s.AgentScope?
    ensures Key(s) == "tool:" + (s.tool + Tail(s))
    ensures "tool:" <= Key(s)
    ensures Tail(s) == "" || Tail(s)[0] == ':'
    ensures s.TeamScope? ==> |Tail(s)| > 1 && Tail(s)[1] == 't'
    ensures s.ToolAgentScope? ==> |Tail(s)| > 1 && Tail(s)[1] == 'a'
  {
    match s
    case ToolScope(t) => assert t + "" == t;
    case TeamScope(t, team) => assert Key(s) == "tool:" + (t + (":team:" + team));
    case ToolAgentScope(t, a) => assert Key(s) == "tool:" + (t + (":agent:" + a));
  }

  function FirstColon(s: string): (k: nat)
    ensures k <= |s|
  {
    if s == "" || s[0] == ':' then 0 else 1 + FirstColon(s[1..])
  }

  /** A colon-free front is what comes before the first colon of the whole. */
  lemma {:induction false} FrontEndsAtColon(t: string, x: string)
    requires ':' !in t && (x == "" || x[0] == ':')
    ensures FirstColon(t + x) == |t|
  {
    if t == "" {
      assert t + x == x;
    } else {
      assert (t + x)[1..] == t[1..] + x;
      FrontEndsAtColon(t[1..], x);
    }
  }

  lemma {:induction false} FrontUnique(t1: string, x1: string, t2: string, x2: string)
    requires ':' !in t1 && ':' !in t2
    requires x1 == "" || x1[0] == ':'
    requires x2 == "" || x2[0] == ':'
    requires t1 + x1 == t2 + x2
    ensures t1 == t2 && x1 == x2
  {
    var whole := t1 + x1;
    FrontEndsAtColon(t1, x1);
    FrontEndsAtColon(t2, x2);
    assert t1 == whole[..|t1|] && t2 == whole[..|t2|];
    assert x1 == whole[|t1|..] && x2 == whole[|t2|..];
  }

  lemma StripPrefix(p: string, x: string, y: string)
    requires p + x == p + y
    ensures x == y
  {
    assert (p + x)[|p|..] == x;
    assert (p + y)[|p|..] == y;
  }

  /**
  Distinct scopes have distinct buckets, even for team names with colons in them.
  */
  lemma {:induction false} KeyInjective(s1: Scope, s2: Scope)
    requires Plain(s1) && Plain(s2) && Key(s1) == Key(s2)
    ensures s1 == s2
  {
    if !s1.AgentScope? { KeyParts(s1); }
    if !s2.AgentScope? { KeyParts(s2); }
    if !s1.AgentScope? && !s2.AgentScope? {
      StripPrefix("tool:", s1.tool + Tail(s1), s2.tool + Tail(s2));
      FrontUnique(s1.tool, Tail(s1), s2.tool, Tail(s2));
      TailInjective(s1, s2);
    }
  }

  lemma TailInjective(s1: Scope, s2: Scope)
    requires !s1.AgentScope? && !s2.AgentScope? && s1.tool == s2.tool && Tail(s1) == Tail(s2)
    ensures s1 == s2
  {
    KeyParts(s1);
    KeyParts(s2);
    if s1.TeamScope? && s2.TeamScope? {
      StripPrefix(":team:", s1.team, s2.team);
    } else if s1.ToolAgentScope? && s2.ToolAgentScope? {
      StripPrefix(":agent:", s1.agent, s2.agent);
    }
  }

  /**
  The key of `b`, read from its tool ID on, is the key of `a`: an agent ID that is a whole tool key,
  or a tool ID that goes on after `a`'s with what `a` puts after its own, as in "t:team:x".
  */
  predicate ReadsAs(b: Scope, a: Scope) {
    !b.AgentScope? &&
    if a.AgentScope? then a.agent == Key(b)
    else |a.tool| < |b.tool| && a.tool <= b.tool && Tail(a) == b.tool[|a.tool|..] + Tail(b)
  }

  /** Two scopes share a bucket exactly when they are the same or one reads as the other. */
  lemma {:induction false} KeysEqualIff(s1: Scope, s2: Scope)
    ensures Key(s1) == Key(s2) <==> s1 == s2 || ReadsAs(s1, s2) || ReadsAs(s2, s1)
  {
    if !s1.AgentScope? { KeyParts(s1); }
    if !s2.AgentScope? { KeyParts(s2); }
    if !s1.AgentScope? && !s2.AgentScope? {
      if Key(s1) == Key(s2) {
        StripPrefix("tool:", s1.tool + Tail(s1), s2.tool + Tail(s2));
        FrontsNest(s1.tool, Tail(s1), s2.tool, Tail(s2));
        FrontsNest(s2.tool, Tail(s2), s1.tool, Tail(s1));
        if |s1.tool| == |s2.tool| { TailInjective(s1, s2); }
      }
      if ReadsAs(s1, s2) { ReadsAsSameKey(s1, s2); }
      if ReadsAs(s2, s1) { ReadsAsSameKey(s2, s1); }
    }
  }

  lemma FrontsNest(t1: string, x1: string, t2: string, x2: string)
    requires t1 + x1 == t2 + x2
    ensures |t1| <= |t2| ==> t1 <= t2 && x1 == t2[|t1|..] + x2
  {
    if |t1| <= |t2| {
      assert t1 == (t1 + x1)[..|t1|] == (t2 + x2)[..|t1|] == t2[..|t1|];
      assert x1 == (t1 + x1)[|t1|..] == (t2 + x2)[|t1|..];
    }
  }

  lemma ReadsAsSameKey(b: Scope, a: Scope)
    requires !a.AgentScope? && ReadsAs(b, a)
    ensures Key(a) == Key(b)
  {
    KeyParts(a);
    KeyParts(b);
    JoinedParts(a.tool, b.tool, Tail(b));
  }

  lemma JoinedParts(front: string, whole: string, tail: string)
    requires front <= whole
    ensures front + (whole[|front|..] + tail) == whole + tail
  {
    assert front + whole[|front|..] == whole;
  }

  /** The text of the ids the database generates. */
  predicate IsUuid(id: string) {
    |id| == 36 && forall i :: 0 <= i < |id| ==> '0' <= id[i] <= '9' || 'a' <= id[i] <= 'f' || id[i] == '-'
  }

  predicate HasUuids(s: Scope) {
    match s
    case AgentScope(a) => IsUuid(a)
    case ToolScope(t) => IsUuid(t)
    case TeamScope(t, _) => IsUuid(t)
    case ToolAgentScope(t, a) => IsUuid(t) && IsUuid(a)
  }

  lemma UuidsArePlain(s: Scope)
    requires HasUuids(s)
    ensures Plain(s)
  {
    var id := if s.AgentScope? then s.agent else s.tool;
    assert id[0] != 't' && "tool:"[0] == 't';
  }

  /** Tools and agents have UUIDs for ids, so in the gateway distinct scopes never share a bucket. */
  lemma {:induction false} UuidScopesAreSeparate(s1: Scope, s2: Scope)
    requires HasUuids(s1) && HasUuids(s2)
    ensures Plain(s1) && Plain(s2) && (Key(s1) == Key(s2) ==> s1 == s2)
  {
    UuidsArePlain(s1);
    UuidsArePlain(s2);
    if Key(s1) == Key(s2) { KeyInjective(s1, s2); }
  }
}
