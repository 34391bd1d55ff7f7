/**
The limiter object: a table of buckets, shared by all callers and updated in
place.  Each method body is one section under the limiter's lock.
*/
module RateLimiter {
  import opened Common
  import TB = TokenBucket
  import opened LimiterRun

  /** The state of one key; tokens are scaled by the window as in TokenBucket. */
  class BucketCell {
    var tokens: int
    var last: int
    var rate: int

    function Value(): TB.Bucket
      reads this
    {
      TB.Bucket(tokens, last, rate)
    }

    constructor (tokens: int, last: int, rate: int)
      ensures Value() == TB.Bucket(tokens, last, rate)
    {
      this.tokens, this.last, this.rate := tokens, last, rate;
    }
  }

  class Limiter {
    var buckets: map<string, BucketCell>
    ghost var cells: set<BucketCell>  // every bucket of the table
    const defaultRate: int
    const window: int

    ghost predicate Valid()
      reads this, cells
    {
      && window > 0 && defaultRate >= 0
      && (forall k :: k in buckets ==> buckets[k] in cells)
      && (forall k1, k2 :: k1 in buckets && k2 in buckets && k1 != k2 ==> buckets[k1] != buckets[k2])
    }

    ghost function Contents(): (m: Table)
      requires Valid()
      reads this, cells
    {
      map k | k in buckets :: buckets[k].Value()
    }

    constructor (defaultRate: int, window: int)
      requires defaultRate >= 0 && window > 0
      ensures Valid() && Contents() == map[] && cells == {}
      ensures this.defaultRate == defaultRate && this.window == window
    {
      this.buckets, this.cells := map[], {};
      this.defaultRate, this.window := defaultRate, window;
    }

    function EffectiveRate(customRate: int): int {
      if customRate > 0 then customRate else defaultRate
    }

    method GetBucket(key: string, rate: int, created: int) returns (b: BucketCell)
      requires Valid()
      modifies this`buckets, this`cells, cells
      ensures Valid() && key in buckets && b == buckets[key]
      ensures fresh(cells - old(cells))
      ensures Contents() == old(Contents())[key :=
                (match Lookup(old(Contents()), key)
                 case None => TB.FullBucket(window, rate, created)
                 case Some(v) => v.(rate := rate))]
    {
      if key in buckets {
        b := buckets[key];
      } else {
        b := new BucketCell(rate * window, created, rate);
        buckets := buckets[key := b];
        cells := cells + {b};
      }
      b.rate := rate;
      assert key in Contents().Keys;
    }

    /** Writes the tokens and the refill time of the bucket of `key`; every other bucket keeps its value. */
    method Write(key: string, b: BucketCell, tokens: int, last: int)
      requires Valid() && key in buckets && b == buckets[key]
      modifies b
      ensures Valid()
      ensures Contents() == old(Contents())[key := TB.Bucket(tokens, last, old(b.rate))]
    {
      b.tokens, b.last := tokens, last;
      forall k | k in buckets && k != key
        ensures buckets[k].Value() == old(buckets[k].Value())
      {
      }
    }

    method RefillCell(key: string, b: BucketCell, now: int)
      requires Valid() && key in buckets && b == buckets[key]
      modifies b
      ensures Valid()
      ensures Contents() == old(Contents())[key := TB.Refill(old(Contents())[key], window, now)]
    {
      assert Contents()[key] == b.Value();
      var elapsed := now - b.last;
      if elapsed <= 0 {
        return;
      }
      var tokens := b.tokens + elapsed * b.rate;
      if tokens > b.rate * window {
        tokens := b.rate * window;
      }
      Write(key, b, tokens, now);
    }

    /** Finds and refills the bucket of `key`; the shared first half of Allow and Status. */
    method Locked(key: string, rate: int, created: int, now: int) returns (b: BucketCell)
      requires Valid() && created <= now && rate >= 0
      modifies this`buckets, this`cells, cells
      ensures Valid() && key in buckets && b == buckets[key]
      ensures fresh(cells - old(cells))
      ensures Contents() == old(Contents())[key := TB.Touch(Lookup(old(Contents()), key), window, rate, now)]
    {
      CreatedThenRefilled(Lookup(Contents(), key), window, rate, created, now);
      b := GetBucket(key, rate, created);
      RefillCell(key, b, now);
    }

    method Allow(key: string, customRate: int, created: int, now: int) returns (allowed: bool)
      requires Valid() && created <= now
      modifies this`buckets, this`cells, cells
      ensures Valid() && fresh(cells - old(cells))
      ensures (Contents(), allowed) ==
              KeyedStep(old(Contents()), window,
                        KeyedOp(0, key, TB.Op(if customRate > 0 then customRate else defaultRate, now, true)))
    {
      var rate := EffectiveRate(customRate);
      var b := Locked(key, rate, created, now);
      assert Contents()[key] == b.Value();
      if b.tokens < window {
        return false;
      }
      Write(key, b, b.tokens - window, b.last);
      assert Contents() == old(Contents())[key := TB.Bucket(b.tokens, b.last, b.rate)];
      return true;
    }

    method Status(key: string, customRate: int, created: int, now: int, later: int)
      returns (limit: int, remaining: int, resetAt: int)
      requires Valid() && created <= now
      requires customRate <= 0 && defaultRate == 0 && key in Contents() ==>
                 Contents()[key].tokens >= 0 && Contents()[key].last <= now
      modifies this`buckets, this`cells, cells
      ensures Valid() && fresh(cells - old(cells))
      ensures Contents() ==
              KeyedStep(old(Contents()), window,
                        KeyedOp(0, key, TB.Op(if customRate > 0 then customRate else defaultRate, now, false))).0
      ensures Contents()[key].rate == 0 ==> Contents()[key].tokens >= 0
      ensures customRate > 0 ==> limit == customRate
      ensures customRate <= 0 ==> limit == defaultRate
      ensures remaining == TB.Remaining(Contents()[key], window)
      ensures resetAt == TB.ResetAt(Contents()[key], window, later)
    {
      var rate := EffectiveRate(customRate);
      var b := Locked(key, rate, created, now);
      if rate == 0 { NeverNegative(Lookup(old(Contents()), key), window, rate, now); }
      assert b.Value() == Contents()[key];
      limit := rate;
      remaining := b.tokens / window;
      if remaining < 0 {
        remaining := 0;
      }
      var deficit := rate * window - b.tokens;
      if deficit <= 0 {
        resetAt := later;
      } else {
        resetAt := later + deficit / rate;
      }
    }
  }

  lemma NeverNegative(o: Option<TB.Bucket>, w: int, rate: int, now: int)
    requires w > 0 && rate >= 0
    requires o.Some? ==> o.value.tokens >= 0 && o.value.last <= now
    ensures var b := TB.Touch(o, w, rate, now); b.tokens >= 0 && b.rate == rate
  {
    MulMono(0, rate, w);
    if o.Some? { MulMono(0, now - o.value.last, rate); }
  }

  /** Creating a bucket and refilling it at two clock readings is the same as one reading. */
  lemma CreatedThenRefilled(o: Option<TB.Bucket>, w: int, rate: int, created: int, now: int)
    requires w > 0 && rate >= 0 && created <= now
    ensures TB.Refill(match o
                      case None => TB.FullBucket(w, rate, created)
                      case Some(v) => v.(rate := rate), w, now) == TB.Touch(o, w, rate, now)
  {
    MulMono(0, now - created, rate);
  }

  /** `k` calls of Allow for one key at one instant. */
  function BurstOn(key: string, rate: int, now: int, k: nat): (r: seq<KeyedOp>)
    ensures |r| == k
  {
    if k == 0 then [] else [KeyedOp(0, key, TB.Op(rate, now, true))] + BurstOn(key, rate, now, k - 1)
  }

  lemma {:induction false} BurstOnKey(key: string, rate: int, now: int, k: nat, ans: seq<bool>)
    requires |ans| == k
    ensures OnKey(BurstOn(key, rate, now, k), key) == TB.Burst(rate, now, k)
    ensures AnswersOnKey(BurstOn(key, rate, now, k), ans, key) == ans
  {
    if k > 0 { BurstOnKey(key, rate, now, k - 1, ans[1..]); }
  }

  /** A full bucket answers a burst at the instant it was made like no bucket at all, and has `rate` tokens. */
  lemma FullLikeNone(w: int, rate: int, now: int, k: nat)
    requires w > 0 && rate >= 0
    ensures var full := TB.FullBucket(w, rate, now);
            && TB.Answers(None, w, TB.Burst(rate, now, k)) == TB.Answers(Some(full), w, TB.Burst(rate, now, k))
            && full.tokens >= 0 && TB.Remaining(full, w) == rate
  {
    MulMono(0, rate, w);
    TB.QuotientUnique(rate * w, w, rate);
    if k > 0 {
      assert TB.Step(None, w, TB.Op(rate, now, true)) ==
             TB.Step(Some(TB.FullBucket(w, rate, now)), w, TB.Op(rate, now, true));
    }
  }

  /** On a key that has no bucket, exactly `rate` calls at one instant are admitted, whatever the other keys hold. */
  lemma {:induction false} FreshKeyAdmitsRate(m: Table, w: int, key: string, rate: int, now: int, k: nat)
    requires w > 0 && rate >= 0 && key !in m
    ensures CountTrue(KeyedAnswers(m, w, BurstOn(key, rate, now, k))) == Min(k, rate)
  {
    KeysAreSeparate(m, w, BurstOn(key, rate, now, k), key);
    BurstOnKey(key, rate, now, k, KeyedAnswers(m, w, BurstOn(key, rate, now, k)));
    FullLikeNone(w, rate, now, k);
    TB.RemainingIsExact(TB.FullBucket(w, rate, now), w, k);
  }
}
