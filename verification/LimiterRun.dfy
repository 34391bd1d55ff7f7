/**
Runs of limiter operations over many keys, as values: what an operation on one
key may change, and what concurrent requests that each check several keys can
get through together.
*/
module LimiterRun {
  import opened Common
  import opened TokenBucket

  type Table = map<string, Bucket>

  /** One atomic limiter operation, made on behalf of request `req`. */
  datatype KeyedOp = KeyedOp(req: nat, key: string, op: Op)

  function KeyedStep(m: Table, w: int, k: KeyedOp): (Table, bool) {
    var (b, a) := Step(Lookup(m, k.key), w, k.op);
    (m[k.key := b], a)
  }

  function KeyedAfter(m: Table, w: int, ks: seq<KeyedOp>): Table
    decreases |ks|
  {
    if ks == [] then m else KeyedAfter(KeyedStep(m, w, ks[0]).0, w, ks[1..])
  }

  function KeyedAnswers(m: Table, w: int, ks: seq<KeyedOp>): (r: seq<bool>)
    ensures |r| == |ks|
    decreases |ks|
  {
    if ks == [] then []
    else
      var (m1, a) := KeyedStep(m, w, ks[0]);
      [a] + KeyedAnswers(m1, w, ks[1..])
  }

  // ---------------------------------------------------------------- projection to one key

  function OnKey(ks: seq<KeyedOp>, key: string): seq<Op> {
    if ks == [] then []
    else if ks[0].key == key then [ks[0].op] + OnKey(ks[1..], key)
    else OnKey(ks[1..], key)
  }

  function AnswersOnKey(ks: seq<KeyedOp>, ans: seq<bool>, key: string): (r: seq<bool>)
    requires |ks| == |ans|
    ensures |r| == |OnKey(ks, key)|
  {
    if ks == [] then []
    else if ks[0].key == key then [ans[0]] + AnswersOnKey(ks[1..], ans[1..], key)
    else AnswersOnKey(ks[1..], ans[1..], key)
  }

  /**
  Operations on other keys, however interleaved, change neither the answers
  given on `key` nor the bucket it ends with.
  */
  lemma {:induction false} KeysAreSeparate(m: Table, w: int, ks: seq<KeyedOp>, key: string)
    ensures AnswersOnKey(ks, KeyedAnswers(m, w, ks), key) == Answers(Lookup(m, key), w, OnKey(ks, key))
    ensures Lookup(KeyedAfter(m, w, ks), key) == After(Lookup(m, key), w, OnKey(ks, key))
    decreases |ks|
  {
    if ks != [] {
      var m1 := KeyedStep(m, w, ks[0]).0;
      KeysAreSeparate(m1, w, ks[1..], key);
      var ans := KeyedAnswers(m, w, ks);
      assert ans[1..] == KeyedAnswers(m1, w, ks[1..]);
      if ks[0].key == key {
        assert OnKey(ks, key)[1..] == OnKey(ks[1..], key);
      } else {
        assert Lookup(m1, key) == Lookup(m, key);
      }
    }
  }

  // ---------------------------------------------------------------- requests over several keys

  predicate ClockRuns(ks: seq<KeyedOp>) {
    forall i, j :: 0 <= i < j < |ks| ==> ks[i].op.time <= ks[j].op.time
  }

  predicate KeyRateWithin(ks: seq<KeyedOp>, key: string, most: int) {
    forall i :: 0 <= i < |ks| && ks[i].key == key ==> 0 <= ks[i].op.rate <= most
  }

  /** Operation `i` took a token from `key` for request `r` inside [from, to]. */
  predicate Debited(ks: seq<KeyedOp>, ans: seq<bool>, i: nat, r: nat, key: string, from: int, to: int)
    requires |ks| == |ans|
  {
    i < |ks| && ans[i] && ks[i].req == r && ks[i].key == key && from <= ks[i].op.time <= to
  }

  /** Request `r` took a token from `key` inside [from, to]. */
  ghost predicate TookToken(ks: seq<KeyedOp>, ans: seq<bool>, r: nat, key: string, from: int, to: int)
    requires |ks| == |ans|
  {
    exists i: nat :: Debited(ks, ans, i, r, key, from, to)
  }

  lemma {:induction false} OnKeyNotBefore(ks: seq<KeyedOp>, key: string, t: int)
    requires forall i :: 0 <= i < |ks| ==> t <= ks[i].op.time
    ensures forall i :: 0 <= i < |OnKey(ks, key)| ==> t <= OnKey(ks, key)[i].time
    decreases |ks|
  {
    if ks != [] { OnKeyNotBefore(ks[1..], key, t); }
  }

  lemma {:induction false} OnKeyKeepsOrder(ks: seq<KeyedOp>, key: string, most: int)
    requires ClockRuns(ks) && KeyRateWithin(ks, key, most)
    ensures Monotone(OnKey(ks, key)) && RatesWithin(OnKey(ks, key), most)
    decreases |ks|
  {
    if ks != [] {
      OnKeyKeepsOrder(ks[1..], key, most);
      OnKeyNotBefore(ks[1..], key, ks[0].op.time);
    }
  }

  lemma {:induction false} RequestsNeedTokens(
    ks: seq<KeyedOp>, ans: seq<bool>, key: string, from: int, to: int, admitted: set<nat>)
    requires |ks| == |ans|
    requires forall r :: r in admitted ==> TookToken(ks, ans, r, key, from, to)
    ensures |admitted| <= TakenWithin(OnKey(ks, key), AnswersOnKey(ks, ans, key), from, to)
    decreases |ks|
  {
    if ks == [] {
      assert admitted == {};
    } else {
      var counts := ans[0] && ks[0].key == key && from <= ks[0].op.time <= to;
      var rest := if counts then admitted - {ks[0].req} else admitted;
      forall r | r in rest
        ensures TookToken(ks[1..], ans[1..], r, key, from, to)
      {
        assert TookToken(ks, ans, r, key, from, to);
        var i: nat :| Debited(ks, ans, i, r, key, from, to);
        assert Debited(ks[1..], ans[1..], i - 1, r, key, from, to);
      }
      RequestsNeedTokens(ks[1..], ans[1..], key, from, to, rest);
      assert |admitted| <= |rest| + (if counts then 1 else 0);
    }
  }

  /**
  The envelope of one scope over concurrent requests: however the limiter
  operations of many requests interleave, the requests that took a token from
  `key` inside any closed interval of length d number at most most + most * d / w.
  */
  lemma {:induction false} ScopeEnvelope(
    w: int, ks: seq<KeyedOp>, key: string, most: int, from: int, to: int, admitted: set<nat>)
    requires w > 0 && most >= 0 && from <= to
    requires ClockRuns(ks) && KeyRateWithin(ks, key, most)
    requires forall r :: r in admitted ==> TookToken(ks, KeyedAnswers(map[], w, ks), r, key, from, to)
    ensures w * |admitted| <= most * w + most * (to - from)
  {
    var ans := KeyedAnswers(map[], w, ks);
    RequestsNeedTokens(ks, ans, key, from, to, admitted);
    KeysAreSeparate(map[], w, ks, key);
    OnKeyKeepsOrder(ks, key, most);
    IntervalBound(None, w, OnKey(ks, key), most, from, to);
    MulMono(|admitted|, TakenWithin(OnKey(ks, key), AnswersOnKey(ks, ans, key), from, to), w);
  }
}
