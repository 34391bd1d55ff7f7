/**
Percentiles estimated from histograms: cumulative buckets of all label sets are
merged, sorted by bound and interpolated linearly.
*/
module Percentile {
  import opened Common

  datatype Bound = Finite(b: real) | Inf

  datatype Histogram = Histogram(sampleCount: nat, buckets: seq<(Bound, nat)>)

  datatype Metric = Metric(labels: seq<(string, string)>, histogram: Option<Histogram>)

  type Family = seq<Metric>

  predicate Less(x: Bound, y: Bound) {
    x.Finite? && (y.Inf? || x.b < y.b)
  }

  predicate HasLabel(m: Metric, name: string, value: string) {
    exists i :: 0 <= i < |m.labels| && m.labels[i] == (name, value)
  }

  // ---------------------------------------------------------------- merging

  type Merged = map<Bound, nat>

  function Get0(m: Merged, b: Bound): nat {
    if b in m then m[b] else 0
  }

  function MergeBuckets(m: Merged, bs: seq<(Bound, nat)>): Merged
    decreases |bs|
  {
    if bs == [] then m else MergeBuckets(m[bs[0].0 := Get0(m, bs[0].0) + bs[0].1], bs[1..])
  }

  function MergeFamily(m: Merged, f: Family): Merged
    decreases |f|
  {
    if f == [] then m
    else if f[0].histogram.None? then MergeFamily(m, f[1..])
    else MergeFamily(MergeBuckets(m, f[0].histogram.value.buckets), f[1..])
  }

  function TotalCount(f: Family): nat {
    if f == [] then 0
    else (if f[0].histogram.None? then 0 else f[0].histogram.value.sampleCount) + TotalCount(f[1..])
  }

  // ---------------------------------------------------------------- sorted listings

  predicate Sorted(bs: seq<(Bound, nat)>) {
    forall i, j :: 0 <= i < j < |bs| ==> Less(bs[i].0, bs[j].0)
  }

  /** `bs` lists the map `m` in increasing order of bounds. */
  ghost predicate Listing(m: Merged, bs: seq<(Bound, nat)>) {
    Sorted(bs) && forall b, c :: (b, c) in bs <==> b in m && m[b] == c
  }

  function Insert(x: (Bound, nat), bs: seq<(Bound, nat)>): (r: seq<(Bound, nat)>)
    ensures multiset(r) == multiset(bs) + multiset{x}
  {
    if bs == [] then [x]
    else if Less(x.0, bs[0].0) then
      assert [x] + bs == [x] + ([bs[0]] + bs[1..]);
      [x] + bs
    else
      assert bs == [bs[0]] + bs[1..];
      [bs[0]] + Insert(x, bs[1..])
  }

  lemma {:induction false} InsertSorted(x: (Bound, nat), bs: seq<(Bound, nat)>)
    requires Sorted(bs) && forall i :: 0 <= i < |bs| ==> bs[i].0 != x.0
    ensures Sorted(Insert(x, bs))
    ensures forall e :: e in Insert(x, bs) <==> e == x || e in bs
  {
    forall e
      ensures e in Insert(x, bs) <==> e == x || e in bs
    {
      assert e in multiset(Insert(x, bs)) <==> e in multiset(bs) + multiset{x};
    }
    if bs != [] && !Less(x.0, bs[0].0) {
      InsertSorted(x, bs[1..]);
      var r := Insert(x, bs[1..]);
      forall j | 0 <= j < |r|
        ensures Less(bs[0].0, r[j].0)
      {
        assert r[j] in r;
        if r[j] in bs[1..] {
          var k :| 0 <= k < |bs[1..]| && bs[1..][k] == r[j];
          assert Less(bs[0].0, bs[k + 1].0);
        }
      }
    }
  }

  ghost function ListingOf(m: Merged): seq<(Bound, nat)>
    decreases |m|
  {
    if m == map[] then []
    else
      var b :| b in m;
      Insert((b, m[b]), ListingOf(m - {b}))
  }

  lemma {:induction false} ListingExists(m: Merged)
    ensures Listing(m, ListingOf(m))
    decreases |m|
  {
    if m != map[] {
      var b :| b in m && ListingOf(m) == Insert((b, m[b]), ListingOf(m - {b}));
      ListingExists(m - {b});
      ListingInsert(m, b, ListingOf(m - {b}));
    }
  }

  lemma ListingInsert(m: Merged, b: Bound, rest: seq<(Bound, nat)>)
    requires b in m && Listing(m - {b}, rest)
    ensures Listing(m, Insert((b, m[b]), rest))
  {
    forall i | 0 <= i < |rest|
      ensures rest[i].0 != b
    {
      assert (rest[i].0, rest[i].1) in rest;
    }
    InsertSorted((b, m[b]), rest);
    forall k, c
      ensures (k, c) in Insert((b, m[b]), rest) <==> k in m && m[k] == c
    {
      assert (k, c) in Insert((b, m[b]), rest) <==> (k, c) == (b, m[b]) || (k, c) in rest;
      assert (k, c) in rest <==> k in m - {b} && (m - {b})[k] == c;
    }
  }

  /** Whatever order the map is walked in, the sorted buckets are the same. */
  lemma {:induction false} ListingUnique(m: Merged, b1: seq<(Bound, nat)>, b2: seq<(Bound, nat)>)
    requires Listing(m, b1) && Listing(m, b2)
    ensures b1 == b2
    decreases |b1|
  {
    SameEntries(m, b1, b2);
    SameEntries(m, b2, b1);
    if b1 != [] {
      assert b1[0] in b2 && b2[0] in b1;
      SameHead(b1, b2);
      var m1 := m - {b1[0].0};
      TailListing(m, b1);
      TailListing(m, b2);
      ListingUnique(m1, b1[1..], b2[1..]);
      assert b1 == [b1[0]] + b1[1..] && b2 == [b2[0]] + b2[1..];
    }
  }

  lemma SameEntries(m: Merged, b1: seq<(Bound, nat)>, b2: seq<(Bound, nat)>)
    requires Listing(m, b1) && Listing(m, b2)
    ensures forall i :: 0 <= i < |b1| ==> b1[i] in b2
    ensures b1 != [] ==> b2 != []
  {
    forall i | 0 <= i < |b1|
      ensures b1[i] in b2
    {
      assert (b1[i].0, b1[i].1) in b1;
    }
    assert b1 != [] ==> b1[0] in b2;
  }

  lemma SameHead(b1: seq<(Bound, nat)>, b2: seq<(Bound, nat)>)
    requires Sorted(b1) && Sorted(b2) && b1 != [] && b2 != []
    requires b1[0] in b2 && b2[0] in b1
    ensures b1[0] == b2[0]
  {
    var i :| 0 <= i < |b2| && b2[i] == b1[0];
    var j :| 0 <= j < |b1| && b1[j] == b2[0];
  }

  lemma TailListing(m: Merged, bs: seq<(Bound, nat)>)
    requires Listing(m, bs) && bs != []
    ensures Listing(m - {bs[0].0}, bs[1..])
  {
    var m1 := m - {bs[0].0};
    forall b, c
      ensures (b, c) in bs[1..] <==> b in m1 && m1[b] == c
    {
      if (b, c) in bs[1..] {
        var k :| 0 <= k < |bs[1..]| && bs[1..][k] == (b, c);
        assert Less(bs[0].0, bs[k + 1].0);
        assert (b, c) in bs;
      }
      if b in m1 && m1[b] == c {
        assert (b, c) in bs;
        assert (b, c) != bs[0];
      }
    }
  }

  // ---------------------------------------------------------------- the estimate

  /** How many finite bounds come before the infinite one or the end. */
  function FiniteLen(bs: seq<(Bound, nat)>): (n: nat)
    ensures n <= |bs|
    ensures forall i :: 0 <= i < n ==> bs[i].0.Finite?
    ensures n < |bs| ==> bs[n].0.Inf?
  {
    if bs == [] || bs[0].0.Inf? then 0 else 1 + FiniteLen(bs[1..])
  }

  /** The first finite bucket whose cumulative count reaches the rank; FiniteLen when none does. */
  function StopAt(bs: seq<(Bound, nat)>, rank: real): (j: nat)
    ensures j <= FiniteLen(bs)
    ensures forall i :: 0 <= i < j ==> (bs[i].1 as real) < rank
    ensures j < FiniteLen(bs) ==> bs[j].1 as real >= rank
  {
    if bs == [] || bs[0].0.Inf? || bs[0].1 as real >= rank then 0 else 1 + StopAt(bs[1..], rank)
  }

  function LowBound(bs: seq<(Bound, nat)>, j: nat): real
    requires j <= FiniteLen(bs)
  {
    if j == 0 then 0.0 else bs[j - 1].0.b
  }

  function LowCount(bs: seq<(Bound, nat)>, j: nat): nat
    requires j <= FiniteLen(bs)
  {
    if j == 0 then 0 else bs[j - 1].1
  }

  function Interpolate(lo: real, lowCount: nat, hi: real, count: nat, rank: real): real
    requires lowCount <= count
  {
    if count == lowCount then hi
    else lo + (rank - lowCount as real) / ((count - lowCount) as real) * (hi - lo)
  }

  /** The unsigned subtraction never wraps around, even for counts that are not cumulative. */
  lemma StopCountsGrow(bs: seq<(Bound, nat)>, rank: real)
    ensures var j := StopAt(bs, rank);
            j < FiniteLen(bs) ==>
              && LowCount(bs, j) <= bs[j].1
              && (LowCount(bs, j) == bs[j].1 ==> rank <= 0.0 && j == 0)
  {
  }

  function Estimate(bs: seq<(Bound, nat)>, rank: real): real {
    var j := StopAt(bs, rank);
    StopCountsGrow(bs, rank);
    if j < FiniteLen(bs) then Interpolate(LowBound(bs, j), LowCount(bs, j), bs[j].0.b, bs[j].1, rank)
    else LowBound(bs, j)
  }

  function Rank(total: nat, q: real): real { q * (total as real) }

  ghost function PercentileOfMerged(total: nat, m: Merged, q: real): real {
    if total == 0 then 0.0 else Estimate(ListingOf(m), Rank(total, q))
  }

  ghost function HistogramPercentileOf(f: Family, q: real): real {
    PercentileOfMerged(TotalCount(f), MergeFamily(map[], f), q)
  }

  // ---------------------------------------------------------------- the code

  /** Sorting by bound, as the library sort does it for distinct bounds. */
  method SortByBound(bs: seq<(Bound, nat)>) returns (r: seq<(Bound, nat)>)
    requires forall i, j :: 0 <= i < j < |bs| ==> bs[i].0 != bs[j].0
    ensures Sorted(r) && forall e :: e in r <==> e in bs
  {
    r := [];
    for i := 0 to |bs|
      invariant Sorted(r) && forall e :: e in r <==> e in bs[..i]
    {
      forall k | 0 <= k < |r|
        ensures r[k].0 != bs[i].0
      {
        assert r[k] in bs[..i];
      }
      InsertSorted(bs[i], r);
      r := Insert(bs[i], r);
      assert bs[..i + 1] == bs[..i] + [bs[i]];
    }
    assert bs[..|bs|] == bs;
  }

  /** The buckets of the map in some order, then sorted. */
  method ListBuckets(m: Merged) returns (bs: seq<(Bound, nat)>)
    ensures bs == ListingOf(m)
  {
    var todo := m.Keys;
    var all: seq<(Bound, nat)> := [];
    while todo != {}
      invariant todo <= m.Keys
      invariant forall i :: 0 <= i < |all| ==> all[i].0 in m && all[i].0 !in todo && all[i].1 == m[all[i].0]
      invariant forall i, j :: 0 <= i < j < |all| ==> all[i].0 != all[j].0
      invariant forall b :: b in m && b !in todo ==> (b, m[b]) in all
      decreases todo
    {
      var b :| b in todo;
      all := all + [(b, m[b])];
      todo := todo - {b};
    }
    bs := SortByBound(all);
    assert Listing(m, bs);
    ListingExists(m);
    ListingUnique(m, bs, ListingOf(m));
  }

  method MergeHistogram(m: Merged, h: Histogram) returns (m': Merged)
    ensures m' == MergeBuckets(m, h.buckets)
  {
    m' := m;
    for i := 0 to |h.buckets|
      invariant MergeBuckets(m, h.buckets) == MergeBuckets(m', h.buckets[i..])
    {
      var b := h.buckets[i];
      m' := m'[b.0 := Get0(m', b.0) + b.1];
      assert h.buckets[i..][1..] == h.buckets[i + 1..];
    }
  }

  /** Linear interpolation inside the bucket the scan stops in; its own count is an unsigned difference. */
  method InsideBucket(prevBound: real, prevCount: nat, upperBound: real, cumulativeCount: nat, rank: real)
    returns (r: real)
    requires prevCount <= cumulativeCount
    ensures r == Interpolate(prevBound, prevCount, upperBound, cumulativeCount, rank)
  {
    var bucketCount: nat := cumulativeCount - prevCount;
    if bucketCount == 0 {
      return upperBound;
    }
    var fraction := (rank - prevCount as real) / (bucketCount as real);
    return prevBound + fraction * (upperBound - prevBound);
  }

  /** The scan over sorted buckets, once the total is known not to be zero. */
  method ScanBuckets(bs: seq<(Bound, nat)>, rank: real) returns (r: real)
    requires Sorted(bs)
    ensures r == Estimate(bs, rank)
  {
    var prevBound, prevCount := 0.0, 0;
    StopCountsGrow(bs, rank);
    var i := 0;
    while i < |bs|
      invariant 0 <= i <= StopAt(bs, rank)
      invariant prevBound == LowBound(bs, i) && prevCount == LowCount(bs, i)
    {
      var b := bs[i];
      if b.0.Inf? {
        break;
      }
      if b.1 as real >= rank {
        r := InsideBucket(prevBound, prevCount, b.0.b, b.1, rank);
        return;
      }
      prevBound, prevCount := b.0.b, b.1;
      i := i + 1;
    }
    r := LastFiniteBound(bs);
  }

  /** The scan back from the end, when no bucket reaches the rank. */
  method LastFiniteBound(bs: seq<(Bound, nat)>) returns (r: real)
    requires Sorted(bs)
    ensures r == LowBound(bs, FiniteLen(bs))
  {
    var k := |bs| - 1;
    while k >= 0
      invariant -1 <= k < |bs|
      invariant k + 1 >= FiniteLen(bs)
    {
      if bs[k].0.Finite? {
        FiniteInside(bs, k);
        return bs[k].0.b;
      }
      k := k - 1;
    }
    return 0.0;
  }

  /** The loop over the family: the total count and the merged buckets. */
  method Accumulate(metrics: Family) returns (totalCount: nat, bucketMap: Merged)
    ensures totalCount == TotalCount(metrics) && bucketMap == MergeFamily(map[], metrics)
  {
    totalCount, bucketMap := 0, map[];
    for i := 0 to |metrics|
      invariant TotalCount(metrics) == totalCount + TotalCount(metrics[i..])
      invariant MergeFamily(map[], metrics) == MergeFamily(bucketMap, metrics[i..])
    {
      assert metrics[i..][1..] == metrics[i + 1..] && metrics[i..][0] == metrics[i];
      var h := metrics[i].histogram;
      if h.None? {
        continue;
      }
      totalCount := totalCount + h.value.sampleCount;
      bucketMap := MergeHistogram(bucketMap, h.value);
    }
  }

  method AccumulateWithLabel(metrics: Family, name: string, value: string) returns (totalCount: nat, bucketMap: Merged)
    ensures var kept := Filter((m: Metric) => HasLabel(m, name, value), metrics);
            totalCount == TotalCount(kept) && bucketMap == MergeFamily(map[], kept)
  {
    ghost var p := (m: Metric) => HasLabel(m, name, value);
    totalCount, bucketMap := 0, map[];
    for i := 0 to |metrics|
      invariant TotalCount(Filter(p, metrics)) == totalCount + TotalCount(Filter(p, metrics[i..]))
      invariant MergeFamily(map[], Filter(p, metrics)) == MergeFamily(bucketMap, Filter(p, metrics[i..]))
    {
      assert metrics[i..][1..] == metrics[i + 1..] && metrics[i..][0] == metrics[i];
      if !HasLabel(metrics[i], name, value) {
        continue;
      }
      ghost var rest := Filter(p, metrics[i + 1..]);
      assert Filter(p, metrics[i..]) == [metrics[i]] + rest;
      assert ([metrics[i]] + rest)[1..] == rest;
      var h := metrics[i].histogram;
      if h.None? {
        continue;
      }
      totalCount := totalCount + h.value.sampleCount;
      bucketMap := MergeHistogram(bucketMap, h.value);
    }
  }

  /** What both percentile functions do with the merged buckets. */
  method FromMerged(totalCount: nat, bucketMap: Merged, q: real) returns (r: real)
    ensures r == PercentileOfMerged(totalCount, bucketMap, q)
  {
    if totalCount == 0 {
      return 0.0;
    }
    var buckets := ListBuckets(bucketMap);
    ListingExists(bucketMap);
    r := ScanBuckets(buckets, Rank(totalCount, q));
  }

  method HistogramPercentile(f: Option<Family>, q: real) returns (r: real)
    ensures r == if f.None? then 0.0 else HistogramPercentileOf(f.value, q)
  {
    if f.None? {
      return 0.0;
    }
    var totalCount, bucketMap := Accumulate(f.value);
    r := FromMerged(totalCount, bucketMap, q);
  }

  /** The labelled percentile is the plain one of the metrics that carry the label. */
  method HistogramPercentileWithLabel(f: Option<Family>, q: real, name: string, value: string) returns (r: real)
    ensures r == if f.None? then 0.0
                 else HistogramPercentileOf(Filter((m: Metric) => HasLabel(m, name, value), f.value), q)
  {
    if f.None? {
      return 0.0;
    }
    var totalCount, bucketMap := AccumulateWithLabel(f.value, name, value);
    r := FromMerged(totalCount, bucketMap, q);
  }

  lemma {:induction false} FilterWithout<T>(p: T -> bool, a: seq<T>, x: T, b: seq<T>)
    ensures Filter(p, a + [x] + b) == Filter(p, a) + (if p(x) then [x] else []) + Filter(p, b)
  {
    FilterAppend(p, a + [x], b);
    FilterAppend(p, a, [x]);
    assert [x][1..] == [];
  }

  /**
  A metric without the label, or with another value of it, counts for nothing in the labelled
  percentile; a family whose metrics all carry it has its plain percentile.
  */
  lemma {:induction false} OnlyLabelledCount(a: Family, x: Metric, b: Family, q: real, name: string, value: string)
    ensures var p := (m: Metric) => HasLabel(m, name, value);
            && ((name, value) !in x.labels ==>
                  HistogramPercentileOf(Filter(p, a + [x] + b), q) == HistogramPercentileOf(Filter(p, a + b), q))
            && ((forall i :: 0 <= i < |a| ==> (name, value) in a[i].labels) ==>
                  HistogramPercentileOf(Filter(p, a), q) == HistogramPercentileOf(a, q))
  {
    var p := (m: Metric) => HasLabel(m, name, value);
    FilterWithout(p, a, x, b);
    FilterAppend(p, a, b);
    if forall i :: 0 <= i < |a| ==> (name, value) in a[i].labels {
      forall i | 0 <= i < |a| ensures p(a[i]) {
        var k :| 0 <= k < |a[i].labels| && a[i].labels[k] == (name, value);
      }
      FilterAll(p, a);
    }
    if (name, value) !in x.labels {
      assert !p(x);
      assert Filter(p, a) + [] + Filter(p, b) == Filter(p, a + b);
    }
  }

  // ---------------------------------------------------------------- shape of the estimate

  /** The first bucket starts at zero, so its bound must not be negative unless it is empty. */
  predicate StartsAtZero(bs: seq<(Bound, nat)>) {
    FiniteLen(bs) > 0 ==> bs[0].0.b >= 0.0 || bs[0].1 == 0
  }

  lemma ScaleWithin(x: real, d: real, w: real)
    requires d > 0.0 && w >= 0.0
    ensures 0.0 <= x <= d ==> 0.0 <= x / d * w <= w
    ensures 0.0 < x && 0.0 < w ==> 0.0 < x / d * w
  {
    var t := x / d;
    assert t * d == x;
    if 0.0 <= x <= d {
      assert 0.0 <= t <= 1.0;
      assert 0.0 <= t * w && 0.0 <= (1.0 - t) * w;
    }
    if 0.0 < x && 0.0 < w {
      assert t > 0.0;
      assert t * w > 0.0;
    }
  }

  lemma ScaleMono(x: real, y: real, d: real, w: real)
    requires d > 0.0 && w >= 0.0 && x <= y
    ensures x / d * w <= y / d * w
  {
    assert (x / d) * d == x && (y / d) * d == y;
    assert x / d <= y / d;
    assert 0.0 <= (y / d - x / d) * w;
  }

  lemma InterpolateWithin(lo: real, c0: nat, hi: real, c1: nat, rank: real)
    requires c0 <= c1 && lo <= hi && (c0 as real) < rank <= c1 as real
    ensures lo <= Interpolate(lo, c0, hi, c1, rank) <= hi
    ensures lo < hi ==> lo < Interpolate(lo, c0, hi, c1, rank)
  {
    assert (c1 - c0) as real == c1 as real - c0 as real;
    ScaleWithin(rank - c0 as real, (c1 - c0) as real, hi - lo);
  }

  lemma InterpolateMono(lo: real, c0: nat, hi: real, c1: nat, r1: real, r2: real)
    requires c0 <= c1 && lo <= hi && r1 <= r2
    ensures Interpolate(lo, c0, hi, c1, r1) <= Interpolate(lo, c0, hi, c1, r2)
  {
    if c0 < c1 { ScaleMono(r1 - c0 as real, r2 - c0 as real, (c1 - c0) as real, hi - lo); }
  }

  lemma InterpolateAtTop(lo: real, c0: nat, hi: real, c1: nat)
    requires c0 <= c1
    ensures Interpolate(lo, c0, hi, c1, c1 as real) == hi
  {
    if c0 < c1 {
      var d := (c1 - c0) as real;
      assert c1 as real - c0 as real == d;
      assert d / d == 1.0;
    }
  }

  /** Where the scan stops, the bucket has a bound above its low end unless it is the first. */
  lemma StopBucket(bs: seq<(Bound, nat)>, rank: real)
    requires Sorted(bs) && StartsAtZero(bs)
    ensures var j := StopAt(bs, rank);
            j < FiniteLen(bs) ==>
              && LowCount(bs, j) <= bs[j].1 && rank <= bs[j].1 as real
              && (LowCount(bs, j) < bs[j].1 ==> LowBound(bs, j) <= bs[j].0.b)
              && (j > 0 ==> LowBound(bs, j) < bs[j].0.b && (LowCount(bs, j) as real) < rank)
  {
    var j := StopAt(bs, rank);
    StopCountsGrow(bs, rank);
    if 0 < j < FiniteLen(bs) { assert Less(bs[j - 1].0, bs[j].0); }
  }

  /** A positive rank in bucket `j` gives an estimate in that bucket, above its lower end. */
  lemma {:induction false} EstimateInBucket(bs: seq<(Bound, nat)>, rank: real)
    requires Sorted(bs) && StartsAtZero(bs) && rank > 0.0
    ensures var j := StopAt(bs, rank);
            j < FiniteLen(bs) ==>
              && LowBound(bs, j) <= Estimate(bs, rank) <= bs[j].0.b
              && (LowBound(bs, j) < bs[j].0.b ==> LowBound(bs, j) < Estimate(bs, rank))
              && (j > 0 ==> LowBound(bs, j) < bs[j].0.b)
  {
    var j := StopAt(bs, rank);
    StopBucket(bs, rank);
    StopCountsGrow(bs, rank);
    if j < FiniteLen(bs) {
      InterpolateWithin(LowBound(bs, j), LowCount(bs, j), bs[j].0.b, bs[j].1, rank);
    }
  }

  /** No estimate exceeds the bound of the bucket it stops in. */
  lemma {:induction false} EstimateAtMost(bs: seq<(Bound, nat)>, rank: real, j: nat)
    requires Sorted(bs) && StartsAtZero(bs) && StopAt(bs, rank) <= j < FiniteLen(bs)
    ensures Estimate(bs, rank) <= bs[j].0.b
  {
    var i := StopAt(bs, rank);
    if i < j { assert Less(bs[i].0, bs[j].0); }
    StopBucket(bs, rank);
    if LowCount(bs, i) < bs[i].1 {
      var lo, c0, hi, c1 := LowBound(bs, i), LowCount(bs, i), bs[i].0.b, bs[i].1;
      InterpolateMono(lo, c0, hi, c1, rank, c1 as real);
      InterpolateAtTop(lo, c0, hi, c1);
    }
  }

  lemma {:induction false} StopMono(bs: seq<(Bound, nat)>, r1: real, r2: real)
    requires r1 <= r2
    ensures StopAt(bs, r1) <= StopAt(bs, r2)
  {
    if bs != [] { StopMono(bs[1..], r1, r2); }
  }

  /** A higher rank never gives a lower estimate. */
  lemma {:induction false} EstimateMonotone(bs: seq<(Bound, nat)>, r1: real, r2: real)
    requires Sorted(bs) && StartsAtZero(bs) && r1 <= r2
    ensures Estimate(bs, r1) <= Estimate(bs, r2)
  {
    StopMono(bs, r1, r2);
    var i, j := StopAt(bs, r1), StopAt(bs, r2);
    var n := FiniteLen(bs);
    StopBucket(bs, r1);
    if i < j {
      EstimateAtMost(bs, r1, j - 1);
      assert (bs[i].1 as real) < r2;
      if j < n { EstimateInBucket(bs, r2); }
    } else if i < n && LowCount(bs, i) < bs[i].1 {
      InterpolateMono(LowBound(bs, i), LowCount(bs, i), bs[i].0.b, bs[i].1, r1, r2);
    }
  }

  lemma Proportion(x: real, d: real, width: real)
    requires d > 0.0
    ensures x / d * width * d == x * width
  {
    var t := x / d;
    assert t * d == x;
    assert t * width * d == (t * d) * width;
  }

  /** Bucket `j` is the first whose cumulative count reaches the rank. */
  ghost predicate FirstReached(bs: seq<(Bound, nat)>, rank: real, j: nat) {
    j < |bs| && bs[j].1 as real >= rank && forall i :: 0 <= i < j ==> (bs[i].1 as real) < rank
  }

  lemma {:induction false} StopsAtFirst(bs: seq<(Bound, nat)>, rank: real, j: nat)
    requires Sorted(bs) && FirstReached(bs, rank, j) && bs[j].0.Finite?
    ensures StopAt(bs, rank) == j < FiniteLen(bs)
  {
    FiniteInside(bs, j);
  }

  /** `e` divides the interval from `lo` to `hi` as the rank divides the counts; without counts it is `hi`. */
  predicate OnLine(e: real, lo: real, hi: real, c0: int, c1: int, rank: real) {
    if c0 < c1 then (e - lo) * (c1 - c0) as real == (rank - c0 as real) * (hi - lo) else e == hi
  }

  lemma InterpolateIsLinear(lo: real, c0: nat, hi: real, c1: nat, rank: real)
    requires c0 <= c1
    ensures OnLine(Interpolate(lo, c0, hi, c1, rank), lo, hi, c0, c1, rank)
  {
    if c0 < c1 { Proportion(rank - c0 as real, (c1 - c0) as real, hi - lo); }
  }

  /** An estimate on the line of bucket `j`, the first of which starts at zero. */
  ghost predicate Divides(e: real, bs: seq<(Bound, nat)>, rank: real, j: nat)
    requires j < |bs|
  {
    && bs[j].0.Finite? && (j > 0 ==> bs[j - 1].0.Finite?)
    && OnLine(e, if j == 0 then 0.0 else bs[j - 1].0.b, bs[j].0.b, if j == 0 then 0 else bs[j - 1].1, bs[j].1, rank)
  }

  lemma {:induction false} EstimateAtStop(bs: seq<(Bound, nat)>, rank: real, j: nat)
    requires Sorted(bs) && FirstReached(bs, rank, j) && bs[j].0.Finite?
    ensures j < FiniteLen(bs) && LowCount(bs, j) <= bs[j].1
    ensures Estimate(bs, rank) == Interpolate(LowBound(bs, j), LowCount(bs, j), bs[j].0.b, bs[j].1, rank)
  {
    StopsAtFirst(bs, rank, j);
    StopCountsGrow(bs, rank);
  }

  lemma {:induction false} EstimateDivides(bs: seq<(Bound, nat)>, rank: real, j: nat)
    requires Sorted(bs) && FirstReached(bs, rank, j) && bs[j].0.Finite?
    ensures Divides(Estimate(bs, rank), bs, rank, j)
  {
    EstimateAtStop(bs, rank, j);
    InterpolateIsLinear(LowBound(bs, j), LowCount(bs, j), bs[j].0.b, bs[j].1, rank);
  }

  lemma RankIs(total: nat, q: real)
    ensures Rank(total, q) == q * total as real
  {
  }

  lemma PercentileAt(f: Family, q: real)
    requires TotalCount(f) > 0
    ensures HistogramPercentileOf(f, q) == Estimate(ListingOf(MergeFamily(map[], f)), Rank(TotalCount(f), q))
  {
  }

  /** In the bucket where the cumulative count first reaches the rank, the percentile interpolates linearly. */
  lemma {:induction false} PercentileInterpolates(f: Family, q: real, rank: real, j: nat)
    requires TotalCount(f) > 0 && rank == q * TotalCount(f) as real
    requires FirstReached(ListingOf(MergeFamily(map[], f)), rank, j)
    requires ListingOf(MergeFamily(map[], f))[j].0.Finite?
    ensures Divides(HistogramPercentileOf(f, q), ListingOf(MergeFamily(map[], f)), rank, j)
  {
    RankIs(TotalCount(f), q);
    PercentileAt(f, q);
    ListingExists(MergeFamily(map[], f));
    EstimateDivides(ListingOf(MergeFamily(map[], f)), rank, j);
  }

  lemma {:induction false} EstimateBeyond(m: Merged, bs: seq<(Bound, nat)>, rank: real)
    requires Listing(m, bs)
    requires forall b :: b in m && b.Finite? ==> (m[b] as real) < rank
    ensures forall b :: b in m && b.Finite? ==> b.b <= Estimate(bs, rank)
    ensures Finite(Estimate(bs, rank)) in m || (Estimate(bs, rank) == 0.0 && forall b :: b in m ==> b.Inf?)
  {
    var n := FiniteLen(bs);
    forall k | 0 <= k < n ensures bs[k].0 in m && (bs[k].1 as real) < rank {
      assert (bs[k].0, bs[k].1) in bs;
    }
    assert StopAt(bs, rank) == n;
    forall b | b in m && b.Finite? ensures n > 0 && b.b <= bs[n - 1].0.b {
      assert (b, m[b]) in bs;
      var k :| 0 <= k < |bs| && bs[k] == (b, m[b]);
      FiniteInside(bs, k);
      if k < n - 1 { assert Less(bs[k].0, bs[n - 1].0); }
    }
  }

  /** When no finite bucket reaches the rank, the percentile is the greatest finite bound, or zero. */
  lemma {:induction false} PercentileBeyond(f: Family, q: real, rank: real)
    requires TotalCount(f) > 0 && rank == q * TotalCount(f) as real
    requires var m := MergeFamily(map[], f); forall b :: b in m && b.Finite? ==> (m[b] as real) < rank
    ensures var m, e := MergeFamily(map[], f), HistogramPercentileOf(f, q);
            && (forall b :: b in m && b.Finite? ==> b.b <= e)
            && (Finite(e) in m || (e == 0.0 && forall b :: b in m ==> b.Inf?))
  {
    RankIs(TotalCount(f), q);
    PercentileAt(f, q);
    ListingExists(MergeFamily(map[], f));
    EstimateBeyond(MergeFamily(map[], f), ListingOf(MergeFamily(map[], f)), rank);
  }

  lemma RankMono(total: nat, q1: real, q2: real)
    requires q1 <= q2
    ensures Rank(total, q1) <= Rank(total, q2)
  {
    assert 0.0 <= (q2 - q1) * (total as real);
  }

  /** The percentile is monotone in q, over any family whose first bucket starts at zero. */
  lemma {:induction false} PercentileMonotone(f: Family, q1: real, q2: real)
    requires q1 <= q2 && StartsAtZero(ListingOf(MergeFamily(map[], f)))
    ensures HistogramPercentileOf(f, q1) <= HistogramPercentileOf(f, q2)
  {
    var n := TotalCount(f);
    ListingExists(MergeFamily(map[], f));
    RankMono(n, q1, q2);
    EstimateMonotone(ListingOf(MergeFamily(map[], f)), Rank(n, q1), Rank(n, q2));
  }

  /** The greatest finite bound, or zero when there is none. */
  function LastFinite(bs: seq<(Bound, nat)>): real {
    LowBound(bs, FiniteLen(bs))
  }

  lemma {:induction false} EstimateInRange(bs: seq<(Bound, nat)>, rank: real)
    requires Sorted(bs) && rank >= 0.0 && (FiniteLen(bs) > 0 ==> bs[0].0.b >= 0.0)
    ensures 0.0 <= Estimate(bs, rank) <= LastFinite(bs)
  {
    var n, j := FiniteLen(bs), StopAt(bs, rank);
    forall k | 0 < k < n ensures bs[k].0.b > bs[0].0.b { assert Less(bs[0].0, bs[k].0); }
    if j < n {
      EstimateAtMost(bs, rank, n - 1);
      StopBucket(bs, rank);
      if rank > 0.0 {
        EstimateInBucket(bs, rank);
      } else if LowCount(bs, j) < bs[j].1 {
        assert Estimate(bs, rank) == 0.0 + 0.0 / (bs[j].1 as real) * (bs[j].0.b - 0.0);
      }
    }
  }

  /** For q >= 0 and no negative bound the percentile lies between zero and the last finite bound. */
  lemma {:induction false} PercentileInRange(f: Family, q: real)
    requires q >= 0.0
    requires var bs := ListingOf(MergeFamily(map[], f)); FiniteLen(bs) > 0 ==> bs[0].0.b >= 0.0
    ensures 0.0 <= HistogramPercentileOf(f, q) <= LastFinite(ListingOf(MergeFamily(map[], f)))
  {
    var bs := ListingOf(MergeFamily(map[], f));
    ListingExists(MergeFamily(map[], f));
    RankMono(TotalCount(f), 0.0, q);
    EstimateInRange(bs, Rank(TotalCount(f), q));
    EstimateInRange(bs, 0.0);
  }

  lemma QuotientNotNegative(x: real, y: real)
    requires x >= 0.0 && y > 0.0
    ensures x / y >= 0.0 && x / y * y == x
  {
  }

  /** The q whose rank is `n`. */
  lemma QuotientRank(total: nat, n: nat) returns (q: real)
    requires total > 0
    ensures q >= 0.0 && Rank(total, q) == n as real
  {
    q := n as real / total as real;
    QuotientNotNegative(n as real, total as real);
  }

  lemma AtFirstRank(bs: seq<(Bound, nat)>)
    requires FiniteLen(bs) > 0
    ensures Estimate(bs, bs[0].1 as real) == bs[0].0.b
    ensures bs[0].1 > 0 ==> Estimate(bs, 0.0) == 0.0
  {
    if bs[0].1 > 0 { InterpolateAtTop(0.0, 0, bs[0].0.b, bs[0].1); }
  }

  ghost predicate MonotoneInQ(f: Family) {
    forall q1: real, q2: real :: q1 <= q2 ==> HistogramPercentileOf(f, q1) <= HistogramPercentileOf(f, q2)
  }

  /**
  The first bucket is read as starting at zero, so over a negative bound with a count the estimate
  falls as q grows.  That is the only way the percentile of a family fails to be monotone.
  */
  lemma {:induction false} MonotoneIff(f: Family)
    ensures MonotoneInQ(f) <==> TotalCount(f) == 0 || StartsAtZero(ListingOf(MergeFamily(map[], f)))
  {
    var bs := ListingOf(MergeFamily(map[], f));
    if StartsAtZero(bs) {
      forall q1: real, q2: real | q1 <= q2 ensures HistogramPercentileOf(f, q1) <= HistogramPercentileOf(f, q2) {
        PercentileMonotone(f, q1, q2);
      }
    } else if TotalCount(f) > 0 {
      var q := QuotientRank(TotalCount(f), bs[0].1);
      AtFirstRank(bs);
      assert Rank(TotalCount(f), 0.0) == 0.0;
      assert HistogramPercentileOf(f, 0.0) == 0.0 && HistogramPercentileOf(f, q) < 0.0;
    }
  }

  ghost predicate WithinBounds(f: Family) {
    forall q: real :: q >= 0.0 ==> 0.0 <= HistogramPercentileOf(f, q) <= LastFinite(ListingOf(MergeFamily(map[], f)))
  }

  /** A negative bound is also the only way the percentile leaves the range from zero to the last finite bound. */
  lemma {:induction false} WithinBoundsIff(f: Family)
    ensures var bs := ListingOf(MergeFamily(map[], f));
            WithinBounds(f) <==>
              (FiniteLen(bs) > 0 ==> bs[0].0.b >= 0.0) || (TotalCount(f) == 0 && LastFinite(bs) >= 0.0)
  {
    var bs := ListingOf(MergeFamily(map[], f));
    if FiniteLen(bs) > 0 ==> bs[0].0.b >= 0.0 {
      forall q: real | q >= 0.0 ensures 0.0 <= HistogramPercentileOf(f, q) <= LastFinite(bs) {
        PercentileInRange(f, q);
      }
    } else if TotalCount(f) > 0 {
      var q := QuotientRank(TotalCount(f), bs[0].1);
      AtFirstRank(bs);
      assert HistogramPercentileOf(f, q) < 0.0;
    } else {
      assert HistogramPercentileOf(f, 0.0) == 0.0;
    }
  }

  // ---------------------------------------------------------------- against the observations

  predicate AtMost(x: real, b: Bound) {
    b.Inf? || x <= b.b
  }

  /** How many observations a cumulative bucket with bound `b` has counted. */
  function CountUpTo(obs: seq<real>, b: Bound): nat {
    if obs == [] then 0 else (if AtMost(obs[0], b) then 1 else 0) + CountUpTo(obs[1..], b)
  }

  /** The histogram of some observations over given bounds. */
  function Observe(obs: seq<real>, bounds: seq<Bound>): Histogram {
    Histogram(|obs|, seq(|bounds|, i requires 0 <= i < |bounds| => (bounds[i], CountUpTo(obs, bounds[i]))))
  }

  predicate DistinctBounds(bounds: seq<Bound>) {
    forall i, j :: 0 <= i < j < |bounds| ==> bounds[i] != bounds[j]
  }

  /** Family `f` holds one histogram per label set, all over the same bounds. */
  predicate Observed(f: Family, obs: seq<seq<real>>, bounds: seq<Bound>) {
    |f| == |obs| && forall i :: 0 <= i < |f| ==> f[i].histogram == Some(Observe(obs[i], bounds))
  }

  lemma {:induction false} CountConcat(a: seq<real>, b: seq<real>, x: Bound)
    ensures CountUpTo(a + b, x) == CountUpTo(a, x) + CountUpTo(b, x)
  {
    if a == [] {
      assert a + b == b;
    } else {
      CountConcat(a[1..], b, x);
      assert (a + b)[1..] == a[1..] + b;
    }
  }

  function CountAt(bs: seq<(Bound, nat)>, b: Bound): nat {
    if bs == [] then 0 else (if bs[0].0 == b then bs[0].1 else 0) + CountAt(bs[1..], b)
  }

  predicate HasBound(bs: seq<(Bound, nat)>, b: Bound) {
    exists i :: 0 <= i < |bs| && bs[i].0 == b
  }

  /** Merging one histogram adds its counts at their own bounds and nowhere else. */
  lemma {:induction false} MergeBucketsAt(m: Merged, bs: seq<(Bound, nat)>, b: Bound)
    ensures Get0(MergeBuckets(m, bs), b) == Get0(m, b) + CountAt(bs, b)
    ensures b in MergeBuckets(m, bs) <==> b in m || HasBound(bs, b)
    decreases |bs|
  {
    if bs != [] {
      MergeBucketsAt(m[bs[0].0 := Get0(m, bs[0].0) + bs[0].1], bs[1..], b);
      if HasBound(bs, b) && bs[0].0 != b {
        var i :| 0 <= i < |bs| && bs[i].0 == b;
        assert bs[1..][i - 1].0 == b;
      }
      if HasBound(bs[1..], b) {
        var i :| 0 <= i < |bs[1..]| && bs[1..][i].0 == b;
        assert bs[i + 1].0 == b;
      }
    }
  }

  lemma {:induction false} CountAtObserved(obs: seq<real>, bounds: seq<Bound>, k: nat, b: Bound)
    requires k <= |bounds| && DistinctBounds(bounds)
    ensures CountAt(Observe(obs, bounds).buckets[k..], b) == if b in bounds[k..] then CountUpTo(obs, b) else 0
    ensures HasBound(Observe(obs, bounds).buckets[k..], b) <==> b in bounds[k..]
    decreases |bounds| - k
  {
    var bs := Observe(obs, bounds).buckets;
    if k < |bounds| {
      CountAtObserved(obs, bounds, k + 1, b);
      assert bs[k..][1..] == bs[k + 1..];
      assert bounds[k..] == [bounds[k]] + bounds[k + 1..];
      assert bs[k..] == [bs[k]] + bs[k + 1..];
      if HasBound(bs[k + 1..], b) {
        var i :| 0 <= i < |bs[k + 1..]| && bs[k + 1..][i].0 == b;
        assert bs[k..][i + 1].0 == b;
      }
      assert bs[k..][0].0 == bounds[k];
      assert bounds[k] !in bounds[k + 1..];
      if HasBound(bs[k..], b) {
        var i :| 0 <= i < |bs[k..]| && bs[k..][i].0 == b;
        assert bounds[k..][i] == b;
      }
    }
  }

  /** Merging over all label sets is counting over all their observations at once. */
  lemma {:induction false} MergeCountsAll(m: Merged, f: Family, obs: seq<seq<real>>, bounds: seq<Bound>)
    requires Observed(f, obs, bounds) && DistinctBounds(bounds)
    ensures forall b :: b in bounds ==> Get0(MergeFamily(m, f), b) == Get0(m, b) + CountUpTo(Concat(obs), b)
    ensures forall b :: b in MergeFamily(m, f) <==> b in m || (f != [] && b in bounds)
    ensures TotalCount(f) == |Concat(obs)|
    decreases |f|
  {
    if f != [] {
      var bs := f[0].histogram.value.buckets;
      var m1 := MergeBuckets(m, bs);
      MergeCountsAll(m1, f[1..], obs[1..], bounds);
      assert bs[0..] == bs && bounds[0..] == bounds;
      forall b
        ensures Get0(m1, b) == Get0(m, b) + if b in bounds then CountUpTo(obs[0], b) else 0
        ensures b in m1 <==> b in m || b in bounds
      {
        MergeBucketsAt(m, bs, b);
        CountAtObserved(obs[0], bounds, 0, b);
      }
      forall b | b in bounds
        ensures Get0(MergeFamily(m, f), b) == Get0(m, b) + CountUpTo(Concat(obs), b)
      {
        CountConcat(obs[0], Concat(obs[1..]), b);
      }
    }
  }

  /** `x` is the least observation with at least `rank` observations up to it. */
  predicate IsQuantile(all: seq<real>, rank: real, x: real) {
    && x in all
    && CountUpTo(all, Finite(x)) as real >= rank
    && forall y :: y in all && CountUpTo(all, Finite(y)) as real >= rank ==> x <= y
  }

  lemma {:induction false} CountMono(all: seq<real>, x: real, y: real)
    requires x <= y
    ensures CountUpTo(all, Finite(x)) <= CountUpTo(all, Finite(y))
  {
    if all != [] { CountMono(all[1..], x, y); }
  }

  /** The greatest observation up to `b` has all the observations up to `b` below it. */
  lemma {:induction false} GreatestUpTo(all: seq<real>, b: real) returns (y: real)
    requires CountUpTo(all, Finite(b)) > 0
    ensures y in all && y <= b && CountUpTo(all, Finite(y)) == CountUpTo(all, Finite(b))
  {
    if all[0] <= b && CountUpTo(all[1..], Finite(b)) == 0 {
      y := all[0];
      CountMono(all[1..], y, b);
    } else {
      y := GreatestUpTo(all[1..], b);
      if all[0] <= b && y < all[0] {
        CountMono(all[1..], y, all[0]);
        CountMono(all[1..], all[0], b);
        y := all[0];
      }
    }
  }

  /** A quantile whose rank falls in bucket `j` lies above the bound before and up to the bound of `j`. */
  lemma {:induction false} QuantileBetween(all: seq<real>, rank: real, x: real, lo: real, hi: real)
    requires rank > 0.0 && IsQuantile(all, rank, x)
    requires CountUpTo(all, Finite(hi)) as real >= rank
    ensures x <= hi
    ensures (CountUpTo(all, Finite(lo)) as real) < rank ==> lo < x
  {
    var y := GreatestUpTo(all, hi);
    if x <= lo { CountMono(all, x, lo); }
  }

  lemma {:induction false} NoneBelowZero(all: seq<real>, b: real)
    requires b < 0.0 && forall i :: 0 <= i < |all| ==> all[i] >= 0.0
    ensures CountUpTo(all, Finite(b)) == 0
  {
    if all != [] { NoneBelowZero(all[1..], b); }
  }

  /** Each sorted bucket of a merged family counts the observations up to its bound. */
  lemma {:induction false} ListedCounts(f: Family, obs: seq<seq<real>>, bounds: seq<Bound>, k: nat)
    requires Observed(f, obs, bounds) && DistinctBounds(bounds)
    requires k < |ListingOf(MergeFamily(map[], f))|
    ensures var e := ListingOf(MergeFamily(map[], f))[k]; e.1 == CountUpTo(Concat(obs), e.0)
  {
    var m := MergeFamily(map[], f);
    ListingExists(m);
    MergeCountsAll(map[], f, obs, bounds);
    var bs := ListingOf(m);
    assert (bs[k].0, bs[k].1) in bs;
  }

  /**
  For non-negative observations, bucketed over common bounds in any number of
  label sets, and a positive rank that falls in a finite bucket, the estimate
  and the true quantile of all the observations lie in the same bucket, so they
  differ by at most its width.
  */
  lemma {:induction false} EstimateBracketsQuantile(
    f: Family, obs: seq<seq<real>>, bounds: seq<Bound>, q: real, x: real)
    requires Observed(f, obs, bounds) && DistinctBounds(bounds)
    requires forall i :: 0 <= i < |Concat(obs)| ==> Concat(obs)[i] >= 0.0
    requires Rank(|Concat(obs)|, q) > 0.0
    requires IsQuantile(Concat(obs), Rank(|Concat(obs)|, q), x)
    requires exists b :: Finite(b) in bounds && CountUpTo(Concat(obs), Finite(b)) as real >= Rank(|Concat(obs)|, q)
    ensures var bs := ListingOf(MergeFamily(map[], f));
            var j := StopAt(bs, Rank(|Concat(obs)|, q));
            && j < FiniteLen(bs)
            && (var lo, hi, e := LowBound(bs, j), bs[j].0.b, HistogramPercentileOf(f, q);
                && lo <= e <= hi && lo <= x <= hi
                && -(hi - lo) <= e - x <= hi - lo
                && (j > 0 ==> lo < e && lo < x))
  {
    var all := Concat(obs);
    var m := MergeFamily(map[], f);
    var rank := Rank(|all|, q);
    var bs := ListingOf(m);
    ListingExists(m);
    MergeCountsAll(map[], f, obs, bounds);
    StopsAtFinite(bs, m, all, bounds, rank);
    var j := StopAt(bs, rank);
    ListedCounts(f, obs, bounds, j);
    if j > 0 { ListedCounts(f, obs, bounds, j - 1); }
    ListedCounts(f, obs, bounds, 0);
    if bs[0].0.b < 0.0 { NoneBelowZero(all, bs[0].0.b); }
    EstimateInBucket(bs, rank);
    QuantileBetween(all, rank, x, LowBound(bs, j), bs[j].0.b);
    assert |all| > 0 by { assert x in all; }
  }

  lemma StopsAtFinite(bs: seq<(Bound, nat)>, m: Merged, all: seq<real>, bounds: seq<Bound>, rank: real)
    requires Listing(m, bs)
    requires forall b :: b in bounds ==> b in m && m[b] == CountUpTo(all, b)
    requires exists b :: Finite(b) in bounds && CountUpTo(all, Finite(b)) as real >= rank
    ensures StopAt(bs, rank) < FiniteLen(bs)
  {
    var b :| Finite(b) in bounds && CountUpTo(all, Finite(b)) as real >= rank;
    assert (Finite(b), m[Finite(b)]) in bs;
    var k :| 0 <= k < |bs| && bs[k] == (Finite(b), m[Finite(b)]);
    FiniteInside(bs, k);
  }

  /** In sorted buckets a finite bound lies before the infinite one. */
  lemma {:induction false} FiniteInside(bs: seq<(Bound, nat)>, k: nat)
    requires Sorted(bs) && k < |bs| && bs[k].0.Finite?
    ensures k < FiniteLen(bs)
  {
    if k > 0 {
      assert Less(bs[0].0, bs[k].0);
      FiniteInside(bs[1..], k - 1);
    }
  }
}
