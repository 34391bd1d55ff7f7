/**
The token bucket behind one limiter key, as values.

Quantities are exact integers.  Time is in nanoseconds and a token is worth
`w` units, where `w` is the length of the window: elapsed time `d` then earns
`d * rate` units, a full bucket holds `rate * w` units and a request costs `w`.
*/
module TokenBucket {
  import opened Common

  datatype Bucket = Bucket(tokens: int, last: int, rate: int)

  /** One operation on a key: `debit` tells Allow from Status. */
  datatype Op = Op(rate: int, time: int, debit: bool)

  function FullBucket(w: int, rate: int, now: int): Bucket {
    Bucket(rate * w, now, rate)
  }

  function Refill(b: Bucket, w: int, now: int): Bucket {
    var elapsed := now - b.last;
    if elapsed <= 0 then b
    else Bucket(Min(b.tokens + elapsed * b.rate, b.rate * w), now, b.rate)
  }

  /** The bucket after it is found (or made) for a key, given its rate, and refilled. */
  function Touch(o: Option<Bucket>, w: int, rate: int, now: int): Bucket {
    match o
    case None => Refill(FullBucket(w, rate, now), w, now)
    case Some(b) => Refill(b.(rate := rate), w, now)
  }

  /** The bucket after one operation, and whether that operation took a token. */
  function Step(o: Option<Bucket>, w: int, op: Op): (Bucket, bool) {
    var b := Touch(o, w, op.rate, op.time);
    if op.debit && b.tokens >= w then (b.(tokens := b.tokens - w), true) else (b, false)
  }

  function After(o: Option<Bucket>, w: int, ops: seq<Op>): (r: Option<Bucket>)
    ensures ops != [] ==> r.Some?
    decreases |ops|
  {
    if ops == [] then o else After(Some(Step(o, w, ops[0]).0), w, ops[1..])
  }

  /** For each operation of a run, whether it took a token. */
  function Answers(o: Option<Bucket>, w: int, ops: seq<Op>): (r: seq<bool>)
    ensures |r| == |ops|
    decreases |ops|
  {
    if ops == [] then []
    else
      var (b, a) := Step(o, w, ops[0]);
      [a] + Answers(Some(b), w, ops[1..])
  }

  predicate Monotone(ops: seq<Op>) {
    forall i, j :: 0 <= i < j < |ops| ==> ops[i].time <= ops[j].time
  }

  predicate ConstantRate(ops: seq<Op>, rate: int) {
    forall i :: 0 <= i < |ops| ==> ops[i].rate == rate
  }

  predicate RatesWithin(ops: seq<Op>, most: int) {
    forall i :: 0 <= i < |ops| ==> 0 <= ops[i].rate <= most
  }

  // ---------------------------------------------------------------- the envelope

  /** What a bucket that was full at touch `s` would hold now, had it never been capped since. */
  function Level(w: int, rate: int, ops: seq<Op>, ans: seq<bool>, s: nat): int
    requires s < |ops| == |ans|
  {
    rate * w + rate * (ops[|ops| - 1].time - ops[s].time) - w * CountTrue(ans[s..])
  }

  /** `t` exceeds no level of the run. */
  ghost predicate BelowLevels(w: int, rate: int, ops: seq<Op>, ans: seq<bool>, t: int)
    requires |ops| == |ans|
  {
    forall s: nat :: s < |ops| ==> t <= Level(w, rate, ops, ans, s)
  }

  ghost predicate SomeLevel(w: int, rate: int, ops: seq<Op>, ans: seq<bool>, t: int)
    requires |ops| == |ans|
  {
    exists s: nat :: s < |ops| && t == Level(w, rate, ops, ans, s)
  }

  lemma {:induction false} StepFacts(o: Option<Bucket>, w: int, op: Op, most: int)
    requires w > 0 && 0 <= op.rate <= most
    requires o.Some? ==> o.value.last <= op.time && 0 <= o.value.tokens <= most * w
    ensures var b := Step(o, w, op).0;
            b.last == op.time && 0 <= b.tokens <= most * w && b.rate == op.rate
    ensures Step(o, w, op).1 ==> Step(o, w, op).0.tokens <= most * w - w
  {
    MulMono(0, most, w);
    assert 0 <= op.rate * w <= most * w by { MulMono(op.rate, most, w); }
    if o.Some? {
      assert 0 <= (op.time - o.value.last) * op.rate by { MulMono(0, op.time - o.value.last, op.rate); }
    }
  }

  /** One operation earns at most `most` per unit of elapsed time and pays `w` when it is admitted. */
  lemma {:induction false} StepEarns(b: Bucket, w: int, op: Op, most: int)
    requires w > 0 && 0 <= op.rate <= most && b.last <= op.time
    ensures var (b1, a) := Step(Some(b), w, op);
            b1.tokens + (if a then w else 0) <= b.tokens + most * (op.time - b.last)
  {
    var d := op.time - b.last;
    assert d * op.rate <= most * d by { MulMono(op.rate, most, d); }
    assert 0 <= most * d by { MulMono(0, d, most); }
  }

  /** What a bucket would hold after a run that never met its cap. */
  function Uncapped(b: Bucket, w: int, rate: int, ops: seq<Op>, ans: seq<bool>): int
    requires 0 < |ops| == |ans|
  {
    b.tokens + rate * (ops[|ops| - 1].time - b.last) - w * CountTrue(ans)
  }

  /** After the first operation the bucket is where it would be uncapped, or at the first level. */
  lemma UncappedAfterStep(b: Bucket, w: int, rate: int, ops: seq<Op>)
    requires w > 0 && rate >= 0 && |ops| > 1 && ops[0].rate == rate
    requires b.last <= ops[0].time && b.tokens <= rate * w
    ensures var ans := Answers(Some(b), w, ops);
            Uncapped(Step(Some(b), w, ops[0]).0, w, rate, ops[1..], ans[1..])
              == Min(Uncapped(b, w, rate, ops, ans), Level(w, rate, ops, ans, 0))
  {
    StepAtRate(b, w, ops[0]);
    FirstLevel(w, rate, ops, Answers(Some(b), w, ops));
    MulSum(rate, ops[0].time - b.last, ops[|ops| - 1].time - ops[0].time);
  }

  lemma UncappedAtOnce(b: Bucket, w: int, rate: int, ops: seq<Op>)
    requires w > 0 && rate >= 0 && |ops| == 1 && ops[0].rate == rate
    requires b.last <= ops[0].time && b.tokens <= rate * w
    ensures var ans := Answers(Some(b), w, ops);
            After(Some(b), w, ops).value.tokens == Min(Uncapped(b, w, rate, ops, ans), Level(w, rate, ops, ans, 0))
  {
    StepAtRate(b, w, ops[0]);
    FirstLevel(w, rate, ops, Answers(Some(b), w, ops));
    assert After(Some(b), w, ops) == Some(Step(Some(b), w, ops[0]).0);
  }

  /** The exact content of a bucket, from any start at or below its cap. */
  lemma {:induction false} ExactFrom(b: Bucket, w: int, rate: int, ops: seq<Op>)
    requires w > 0 && rate >= 0 && |ops| > 0
    requires ConstantRate(ops, rate) && Monotone(ops)
    requires b.last <= ops[0].time && 0 <= b.tokens <= rate * w
    ensures var ans, t := Answers(Some(b), w, ops), After(Some(b), w, ops).value.tokens;
            && t <= Uncapped(b, w, rate, ops, ans) && BelowLevels(w, rate, ops, ans, t)
            && (t == Uncapped(b, w, rate, ops, ans) || SomeLevel(w, rate, ops, ans, t))
    decreases |ops|
  {
    var ans, t := Answers(Some(b), w, ops), After(Some(b), w, ops).value.tokens;
    var first := Level(w, rate, ops, ans, 0);
    if |ops| == 1 {
      UncappedAtOnce(b, w, rate, ops);
    } else {
      var b1 := Step(Some(b), w, ops[0]).0;
      StepFacts(Some(b), w, ops[0], rate);
      ExactFrom(b1, w, rate, ops[1..]);
      UncappedAfterStep(b, w, rate, ops);
      LevelsFromRest(w, rate, ops, ans, t);
    }
    if t == first { assert SomeLevel(w, rate, ops, ans, t); }
  }

  lemma StepAtRate(b: Bucket, w: int, op: Op)
    requires w > 0 && op.rate >= 0 && b.last <= op.time && b.tokens <= op.rate * w
    ensures var (b1, a) := Step(Some(b), w, op);
            b1.tokens + (if a then w else 0) == Min(b.tokens + op.rate * (op.time - b.last), op.rate * w)
  {
    var d := op.time - b.last;
    assert d * op.rate == op.rate * d;
  }

  lemma FirstLevel(w: int, rate: int, ops: seq<Op>, ans: seq<bool>)
    requires 0 < |ops| == |ans|
    ensures w * CountTrue(ans) == (if ans[0] then w else 0) + w * CountTrue(ans[1..])
    ensures Level(w, rate, ops, ans, 0) ==
            rate * w + rate * (ops[|ops| - 1].time - ops[0].time) - (if ans[0] then w else 0) - w * CountTrue(ans[1..])
    ensures |ops| == 1 ==>
              Level(w, rate, ops, ans, 0) == rate * w - (if ans[0] then w else 0) && CountTrue(ans[1..]) == 0
  {
    assert ans[0..] == ans;
    MulSum(w, 1, CountTrue(ans[1..]));
  }

  lemma LevelOfRest(w: int, rate: int, ops: seq<Op>, ans: seq<bool>, s: nat)
    requires |ops| == |ans| && s + 1 < |ops|
    ensures Level(w, rate, ops, ans, s + 1) == Level(w, rate, ops[1..], ans[1..], s)
  {
    assert ans[s + 1..] == ans[1..][s..];
  }

  /** Moves what is known of the levels of the tail of a run to the run itself. */
  lemma LevelsFromRest(w: int, rate: int, ops: seq<Op>, ans: seq<bool>, t: int)
    requires 1 < |ops| == |ans|
    requires BelowLevels(w, rate, ops[1..], ans[1..], t) && t <= Level(w, rate, ops, ans, 0)
    ensures BelowLevels(w, rate, ops, ans, t)
    ensures SomeLevel(w, rate, ops[1..], ans[1..], t) ==> SomeLevel(w, rate, ops, ans, t)
  {
    forall s: nat | s < |ops|
      ensures t <= Level(w, rate, ops, ans, s)
    {
      if s > 0 { LevelOfRest(w, rate, ops, ans, s - 1); }
    }
    if SomeLevel(w, rate, ops[1..], ans[1..], t) {
      var s: nat :| s < |ops| - 1 && t == Level(w, rate, ops[1..], ans[1..], s);
      LevelOfRest(w, rate, ops, ans, s);
      assert t == Level(w, rate, ops, ans, s + 1);
    }
  }

  /**
  At a constant rate the stored tokens are exactly the least level over all
  earlier touches: the lazy refill with a cap forgets nothing.
  */
  lemma {:induction false} TokensAreLeastLevel(w: int, rate: int, ops: seq<Op>)
    requires w > 0 && rate >= 0 && |ops| > 0
    requires ConstantRate(ops, rate) && Monotone(ops)
    ensures var ans := Answers(None, w, ops);
            var t := After(None, w, ops).value.tokens;
            0 <= t && BelowLevels(w, rate, ops, ans, t) && SomeLevel(w, rate, ops, ans, t)
  {
    var full := FullBucket(w, rate, ops[0].time);
    MulMono(0, rate, w);
    ExactFrom(full, w, rate, ops);
    assert Step(None, w, ops[0]) == Step(Some(full), w, ops[0]);
    var ans := Answers(None, w, ops);
    assert ans == Answers(Some(full), w, ops);
    FirstLevel(w, rate, ops, ans);
    TokensInRange(None, w, ops, rate);
    assert After(None, w, ops) == After(Some(full), w, ops);
    var t := After(None, w, ops).value.tokens;
    var start := Uncapped(full, w, rate, ops, ans);
    assert start == Level(w, rate, ops, ans, 0);
    if t == start { assert SomeLevel(w, rate, ops, ans, t); }
  }

  lemma {:induction false} TokensInRange(o: Option<Bucket>, w: int, ops: seq<Op>, most: int)
    requires w > 0 && RatesWithin(ops, most) && Monotone(ops) && |ops| > 0
    requires o.Some? ==> o.value.last <= ops[0].time && 0 <= o.value.tokens <= most * w
    ensures var b := After(o, w, ops).value; 0 <= b.tokens <= most * w
    decreases |ops|
  {
    StepFacts(o, w, ops[0], most);
    if |ops| == 1 {
      assert After(o, w, ops) == Some(Step(o, w, ops[0]).0);
    } else {
      TokensInRange(Some(Step(o, w, ops[0]).0), w, ops[1..], most);
    }
  }

  /** Counting the last operation as admitted, more went through since touch `s` than was earned. */
  predicate WouldOverdraw(w: int, rate: int, ops: seq<Op>, ans: seq<bool>, s: nat)
    requires s < |ops| == |ans|
  {
    var n := |ops| - 1;
    rate * w + rate * (ops[n].time - ops[s].time) < w * (CountTrue(ans[s..n]) + 1)
  }

  lemma LevelOfPrefix(w: int, rate: int, ops: seq<Op>, ans: seq<bool>, s: nat)
    requires s < |ops| == |ans|
    ensures var n := |ops| - 1;
            Level(w, rate, ops, ans, s) ==
            rate * w + rate * (ops[n].time - ops[s].time) - w * CountTrue(ans[s..n]) - (if ans[n] then w else 0)
  {
    var n := |ops| - 1;
    assert ans[s..] == ans[s..n] + [ans[n]];
    CountTrueAppend(ans[s..n], ans[n]);
    var c := CountTrue(ans[s..n]);
    assert w * (c + 1) == w * c + w;
  }

  lemma OverdrawMeansLow(w: int, rate: int, ops: seq<Op>, ans: seq<bool>, s: nat)
    requires w > 0 && s < |ops| == |ans|
    ensures var n := |ops| - 1;
            WouldOverdraw(w, rate, ops, ans, s) <==> Level(w, rate, ops, ans, s) + (if ans[n] then w else 0) < w
  {
    LevelOfPrefix(w, rate, ops, ans, s);
    var c := CountTrue(ans[s..|ops| - 1]);
    assert w * (c + 1) == w * c + w;
  }

  /**
  The last operation, an Allow, is refused exactly when admitting it would let
  more requests through since some earlier touch `s` than the rate pays for.
  */
  lemma {:induction false} RefusedIffEnvelopeWouldBreak(w: int, rate: int, ops: seq<Op>)
    requires w > 0 && rate >= 0 && |ops| > 0
    requires ConstantRate(ops, rate) && Monotone(ops) && ops[|ops| - 1].debit
    ensures var ans := Answers(None, w, ops);
            var n := |ops| - 1;
            !ans[n] <==> exists s :: 0 <= s <= n && WouldOverdraw(w, rate, ops, ans, s)
  {
    var ans := Answers(None, w, ops);
    var n := |ops| - 1;
    TokensAreLeastLevel(w, rate, ops);
    LastStep(None, w, ops);
    forall s | 0 <= s <= n
      ensures WouldOverdraw(w, rate, ops, ans, s) <==> Level(w, rate, ops, ans, s) + (if ans[n] then w else 0) < w
    {
      OverdrawMeansLow(w, rate, ops, ans, s);
    }
  }

  lemma {:induction false} LastStep(o: Option<Bucket>, w: int, ops: seq<Op>)
    requires |ops| > 0
    ensures var n := |ops| - 1;
            var before := After(o, w, ops[..n]);
            After(o, w, ops) == Some(Step(before, w, ops[n]).0) && Answers(o, w, ops)[n] == Step(before, w, ops[n]).1
    decreases |ops|
  {
    var n := |ops| - 1;
    if n == 0 {
      assert After(o, w, ops[..n]) == o;
    } else {
      LastStep(Some(Step(o, w, ops[0]).0), w, ops[1..]);
      assert ops[1..][..n - 1] == ops[..n][1..];
    }
  }

  lemma {:induction false} CountTrueAppend(s: seq<bool>, x: bool)
    ensures CountTrue(s + [x]) == CountTrue(s) + (if x then 1 else 0)
  {
    if s != [] {
      CountTrueAppend(s[1..], x);
      assert (s + [x])[1..] == s[1..] + [x];
    }
  }

  // ---------------------------------------------------------------- any interval

  /** How many operations inside the closed interval [from, to] took a token. */
  function TakenWithin(ops: seq<Op>, ans: seq<bool>, from: int, to: int): nat
    requires |ops| == |ans|
  {
    if ops == [] then 0
    else (if ans[0] && from <= ops[0].time <= to then 1 else 0) + TakenWithin(ops[1..], ans[1..], from, to)
  }

  lemma {:induction false} NothingTakenLater(ops: seq<Op>, ans: seq<bool>, from: int, to: int)
    requires |ops| == |ans|
    requires forall i :: 0 <= i < |ops| ==> to < ops[i].time
    ensures TakenWithin(ops, ans, from, to) == 0
  {
    if ops != [] { NothingTakenLater(ops[1..], ans[1..], from, to); }
  }

  /** A bucket within its rate, before operations within that rate. */
  predicate Sound(b: Bucket, w: int, ops: seq<Op>, most: int) {
    && w > 0 && RatesWithin(ops, most) && Monotone(ops) && most >= 0
    && 0 <= b.tokens <= most * w && (|ops| > 0 ==> b.last <= ops[0].time)
  }

  lemma StepSound(b: Bucket, w: int, ops: seq<Op>, most: int)
    requires Sound(b, w, ops, most) && ops != []
    ensures Sound(Step(Some(b), w, ops[0]).0, w, ops[1..], most) && Step(Some(b), w, ops[0]).0.last == ops[0].time
  {
    StepFacts(Some(b), w, ops[0], most);
  }

  lemma {:induction false} TakenFrom(b: Bucket, w: int, ops: seq<Op>, most: int, from: int, to: int)
    requires Sound(b, w, ops, most) && b.last <= to
    ensures w * TakenWithin(ops, Answers(Some(b), w, ops), from, to) <= b.tokens + most * (to - b.last)
    decreases |ops|
  {
    if ops == [] || to < ops[0].time {
      MulMono(0, to - b.last, most);
      NothingTakenLater(ops, Answers(Some(b), w, ops), from, to);
    } else {
      StepSound(b, w, ops, most);
      TakenFrom(Step(Some(b), w, ops[0]).0, w, ops[1..], most, from, to);
      TakenOn(b, w, ops, most, from, to);
    }
  }

  /** One operation more in front. */
  lemma TakenOn(b: Bucket, w: int, ops: seq<Op>, most: int, from: int, to: int)
    requires w > 0 && ops != [] && 0 <= ops[0].rate <= most && b.last <= ops[0].time <= to
    requires var b1 := Step(Some(b), w, ops[0]).0;
             b1.last == ops[0].time &&
             w * TakenWithin(ops[1..], Answers(Some(b1), w, ops[1..]), from, to) <= b1.tokens + most * (to - b1.last)
    ensures w * TakenWithin(ops, Answers(Some(b), w, ops), from, to) <= b.tokens + most * (to - b.last)
  {
    var (b1, a) := Step(Some(b), w, ops[0]);
    var ans := Answers(Some(b), w, ops);
    StepEarns(b, w, ops[0], most);
    CountOne(w, ops, ans, from, to);
    assert ans[1..] == Answers(Some(b1), w, ops[1..]);
    TakenSum(w * TakenWithin(ops[1..], ans[1..], from, to), if a then w else 0, b1.tokens, b.tokens, most, b.last,
             ops[0].time, to);
  }

  lemma TakenSum(rest: int, one: int, after: int, before: int, most: int, last: int, t: int, to: int)
    requires rest <= after + most * (to - t) && one + after <= before + most * (t - last)
    ensures one + rest <= before + most * (to - last)
  {
    MulSum(most, t - last, to - t);
  }

  lemma MulSum(a: int, x: int, y: int)
    ensures a * (x + y) == a * x + a * y
  {
  }

  lemma CountOne(w: int, ops: seq<Op>, ans: seq<bool>, from: int, to: int)
    requires w > 0 && 0 < |ops| == |ans|
    ensures w * TakenWithin(ops, ans, from, to) <=
            (if ans[0] then w else 0) + w * TakenWithin(ops[1..], ans[1..], from, to)
    ensures ops[0].time < from ==> TakenWithin(ops, ans, from, to) == TakenWithin(ops[1..], ans[1..], from, to)
  {
    MulSum(w, 1, TakenWithin(ops[1..], ans[1..], from, to));
  }

  /** What bucket `b` pays from its last touch on, after an operation that took a token or not. */
  lemma BoundFromBucket(b: Bucket, a: bool, w: int, ops: seq<Op>, most: int, from: int, to: int)
    requires w > 0 && RatesWithin(ops, most) && Monotone(ops) && most >= 0 && from <= b.last <= to
    requires 0 <= b.tokens <= most * w && (a ==> b.tokens <= most * w - w)
    requires |ops| > 0 ==> b.last <= ops[0].time
    ensures (if a then w else 0) + w * TakenWithin(ops, Answers(Some(b), w, ops), from, to)
              <= most * w + most * (to - from)
  {
    TakenFrom(b, w, ops, most, from, to);
    MulMonoRight(most, to - b.last, to - from);
    Combine(a, w, w * TakenWithin(ops, Answers(Some(b), w, ops), from, to), b.tokens, most * (to - b.last),
            most * w, most * (to - from));
  }

  lemma MulMonoRight(c: int, a: int, b: int)
    requires a <= b && 0 <= c
    ensures c * a <= c * b
  {
    MulMono(a, b, c);
  }

  lemma Combine(a: bool, w: int, taken: int, tokens: int, earned: int, cap: int, most: int)
    requires taken <= tokens + earned && earned <= most && tokens <= cap && (a ==> tokens <= cap - w)
    ensures (if a then w else 0) + taken <= cap + most
  {
  }

  /** The bound when the first operation falls inside the interval. */
  lemma BoundFromInside(o: Option<Bucket>, w: int, ops: seq<Op>, most: int, from: int, to: int)
    requires w > 0 && RatesWithin(ops, most) && Monotone(ops) && most >= 0 && |ops| > 0 && from <= ops[0].time <= to
    requires o.Some? ==> 0 <= o.value.tokens <= most * w && o.value.last <= ops[0].time
    ensures w * TakenWithin(ops, Answers(o, w, ops), from, to) <= most * w + most * (to - from)
  {
    var (b1, a) := Step(o, w, ops[0]);
    StepFacts(o, w, ops[0], most);
    CountOne(w, ops, Answers(o, w, ops), from, to);
    BoundFromBucket(b1, a, w, ops[1..], most, from, to);
  }

  lemma NotNegative(a: int, b: int)
    requires a >= 0 && b >= 0
    ensures a * b >= 0
  {
    MulMono(0, a, b);
  }

  /**
  Whatever the rates of the single calls, as long as none exceeds `most`, the
  calls admitted inside any closed interval of length d number at most
  most + most * d / w.
  */
  lemma {:induction false} IntervalBound(o: Option<Bucket>, w: int, ops: seq<Op>, most: int, from: int, to: int)
    requires w > 0 && RatesWithin(ops, most) && Monotone(ops) && most >= 0 && from <= to
    requires o.Some? ==> 0 <= o.value.tokens <= most * w && (|ops| > 0 ==> o.value.last <= ops[0].time)
    ensures w * TakenWithin(ops, Answers(o, w, ops), from, to) <= most * w + most * (to - from)
    decreases |ops|
  {
    NotNegative(most, to - from);
    NotNegative(most, w);
    if ops != [] {
      var t := ops[0].time;
      if t < from {
        StepFacts(o, w, ops[0], most);
        CountOne(w, ops, Answers(o, w, ops), from, to);
        IntervalBound(Some(Step(o, w, ops[0]).0), w, ops[1..], most, from, to);
      } else if to < t {
        NothingTakenLater(ops, Answers(o, w, ops), from, to);
      } else {
        BoundFromInside(o, w, ops, most, from, to);
      }
    }
  }

  // ---------------------------------------------------------------- Status is invisible

  /** Capped refills at one rate compose, also when a lowered rate left the bucket above its cap. */
  lemma {:induction false} TouchTwice(o: Option<Bucket>, w: int, rate: int, t1: int, t2: int)
    requires w > 0 && rate >= 0 && t1 <= t2
    requires o.Some? ==> o.value.last <= t1
    ensures Touch(Some(Touch(o, w, rate, t1)), w, rate, t2) == Touch(o, w, rate, t2)
  {
    assert 0 <= rate * (t2 - t1) by { MulMono(0, t2 - t1, rate); }
    if o.Some? {
      var d := t1 - o.value.last;
      assert (t2 - o.value.last) * rate == d * rate + (t2 - t1) * rate;
      assert 0 <= d * rate by { MulMono(0, d, rate); }
    }
  }

  /** A Status call is followed, if by anything, by a call at the same rate. */
  predicate StatusKeepsRate(ops: seq<Op>) {
    forall i :: 0 <= i && i + 1 < |ops| && !ops[i].debit ==> ops[i].rate == ops[i + 1].rate
  }

  function DropStatus(ops: seq<Op>): (r: seq<Op>)
    ensures forall i :: 0 <= i < |r| ==> r[i].debit
  {
    if ops == [] then []
    else if ops[0].debit then [ops[0]] + DropStatus(ops[1..])
    else DropStatus(ops[1..])
  }

  /** The answers given to the Allow calls of a run. */
  function AllowAnswers(ops: seq<Op>, ans: seq<bool>): seq<bool>
    requires |ops| == |ans|
  {
    if ops == [] then []
    else if ops[0].debit then [ans[0]] + AllowAnswers(ops[1..], ans[1..])
    else AllowAnswers(ops[1..], ans[1..])
  }

  lemma {:induction false} StatusInvisible(o: Option<Bucket>, w: int, ops: seq<Op>)
    requires w > 0 && Monotone(ops) && StatusKeepsRate(ops)
    requires forall i :: 0 <= i < |ops| ==> ops[i].rate >= 0
    requires o.Some? && |ops| > 0 ==> o.value.last <= ops[0].time
    ensures AllowAnswers(ops, Answers(o, w, ops)) == Answers(o, w, DropStatus(ops))
    decreases |ops|
  {
    if ops != [] {
      var (b, a) := Step(o, w, ops[0]);
      assert b.last <= ops[0].time;
      var rest := ops[1..];
      StatusInvisible(Some(b), w, rest);
      if !ops[0].debit && rest != [] {
        TouchTwice(o, w, rest[0].rate, ops[0].time, rest[0].time);
        assert Step(Some(b), w, rest[0]) == Step(o, w, rest[0]);
        SameFirstStep(Some(b), o, w, rest);
        if o.Some? { assert o.value.last <= rest[0].time; }
        StatusInvisible(o, w, rest);
      }
    }
  }

  lemma {:induction false} SameFirstStep(o1: Option<Bucket>, o2: Option<Bucket>, w: int, ops: seq<Op>)
    requires ops != [] && Step(o1, w, ops[0]) == Step(o2, w, ops[0])
    ensures Answers(o1, w, ops) == Answers(o2, w, ops)
  {
  }

  // ---------------------------------------------------------------- what Status reports

  /** Whole tokens left: int(b.tokens), floored at zero. */
  function Remaining(b: Bucket, w: int): int
    requires w > 0
  {
    if b.tokens < 0 then 0 else b.tokens / w
  }

  /** The instant Status reports; `later` is the clock reading the wait is added to. */
  function ResetAt(b: Bucket, w: int, later: int): int
    requires b.rate >= 0 && (b.rate == 0 ==> b.tokens >= 0)
  {
    var deficit := b.rate * w - b.tokens;
    if deficit <= 0 then later else later + deficit / b.rate
  }

  predicate Full(b: Bucket, w: int) { b.tokens >= b.rate * w }

  /**
  An idle bucket is not full at any time before the reported instant (less the
  time the call itself took) and is full at most one nanosecond after it.
  */
  lemma {:induction false} ResetAtIsTight(b: Bucket, w: int, later: int, t: int)
    requires w > 0 && 0 <= b.rate && 0 <= b.tokens && b.last <= later
    ensures b.last <= t < ResetAt(b, w, later) - (later - b.last) ==> !Full(Refill(b, w, t), w)
    ensures t > ResetAt(b, w, later) ==> Full(Refill(b, w, t), w)
  {
    var deficit := b.rate * w - b.tokens;
    if deficit > 0 {
      RatePositive(b.rate, w);
      var q, d := deficit / b.rate, t - b.last;
      DivBounds(deficit, b.rate);
      if 0 <= d < q { EarnsTooLittle(b.rate, d, q, deficit); }
      if d > q { EarnsEnough(b.rate, d, q, deficit); }
      if d >= 0 { FullWhenEarned(b, w, t); }
    } else if t > b.last {
      MulMono(0, t - b.last, b.rate);
    }
  }

  lemma DivBounds(x: int, n: int)
    requires n > 0
    ensures n * (x / n) <= x < n * (x / n + 1)
  {
  }

  /** An idle bucket below its cap is full once it has earned what it lacked. */
  lemma FullWhenEarned(b: Bucket, w: int, t: int)
    requires t >= b.last && b.tokens < b.rate * w
    ensures Full(Refill(b, w, t), w) <==> (t - b.last) * b.rate >= b.rate * w - b.tokens
  {
  }

  lemma RatePositive(rate: int, w: int)
    requires 0 <= rate && 0 < w && rate * w > 0
    ensures rate > 0
  {
  }

  lemma EarnsTooLittle(rate: int, d: int, q: int, deficit: int)
    requires rate > 0 && 0 <= d < q && rate * q <= deficit
    ensures d * rate < deficit && 0 <= d * rate
  {
    MulMono(d, q - 1, rate);
    MulMono(0, d, rate);
    MulSum(rate, q, -1);
  }

  lemma EarnsEnough(rate: int, d: int, q: int, deficit: int)
    requires rate > 0 && d > q && deficit < rate * (q + 1)
    ensures d * rate >= deficit
  {
    MulMono(q + 1, d, rate);
  }

  lemma DivStep(x: int, w: int)
    requires w > 0 && x >= 0
    ensures x >= w ==> x / w == (x - w) / w + 1
    ensures x < w ==> x / w == 0
  {
    if x >= w {
      var q := (x - w) / w;
      MulSum(w, q, 1);
      QuotientUnique(x, w, q + 1);
    } else {
      QuotientUnique(x, w, 0);
    }
  }

  lemma QuotientUnique(x: int, w: int, q: int)
    requires w > 0 && w * q <= x < w * q + w
    ensures x / w == q
  {
    var p := x / w;
    if p < q { MulMono(p + 1, q, w); }
    if q < p { MulMono(q + 1, p, w); }
  }

  /** `k` Allow calls at one instant. */
  function Burst(rate: int, now: int, k: nat): (r: seq<Op>)
    ensures |r| == k
  {
    if k == 0 then [] else [Op(rate, now, true)] + Burst(rate, now, k - 1)
  }

  /** Remaining counts exactly the Allow calls that would be admitted at that same instant. */
  lemma {:induction false} RemainingIsExact(b: Bucket, w: int, k: nat)
    requires w > 0 && b.tokens >= 0
    ensures CountTrue(Answers(Some(b), w, Burst(b.rate, b.last, k))) == Min(k, Remaining(b, w))
    decreases k
  {
    if k > 0 {
      var ops := Burst(b.rate, b.last, k);
      var (b1, a) := Step(Some(b), w, ops[0]);
      assert ops[1..] == Burst(b.rate, b.last, k - 1);
      RemainingIsExact(b1, w, k - 1);
      var ans := Answers(Some(b), w, ops);
      assert ans[1..] == Answers(Some(b1), w, ops[1..]);
      DivStep(b.tokens, w);
    }
  }
}
