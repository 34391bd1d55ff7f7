/**
How many calls can be neither stored nor refused at one moment.  A thread that is storing a batch
cannot fill the buffer, so the batches in flight at once grow smaller in the order they were drained.
*/
module InFlight {
  import opened Common
  import opened Metering
  import opened Budget
  import opened Protocol

  /** The size no batch exceeds. */
  function Largest(c: Config): nat
    requires c.batchSize >= 1
  {
    c.batchSize - 1 + c.requests
  }

  /** What the batches of `j` request threads can hold: each is one smaller than the one drained before. */
  function Room(c: Config, j: nat): nat
    requires c.batchSize >= 1 && j <= c.requests
  {
    if j == 0 then 0 else Room(c, j - 1) + Largest(c) - (j - 1)
  }

  /**
  How many calls can be under way, buffered or being stored at once: a batch of the ticker, and one of
  every request thread.
  */
  function Unsettled(c: Config): nat
    requires c.batchSize >= 1
  {
    Room(c, c.requests) + Largest(c)
  }

  lemma {:induction false} RoomIs(c: Config, j: nat)
    requires c.batchSize >= 1 && j <= c.requests
    ensures 2 * Room(c, j) == j * (2 * c.batchSize + 2 * c.requests - j - 1)
    ensures Room(c, j) >= j
  {
    if j > 0 {
      RoomIs(c, j - 1);
      RoomStep(c.batchSize + c.requests, j);
    }
  }

  lemma RoomStep(m: int, j: int)
    ensures (j - 1) * (2 * m - j) + 2 * (m - j) == j * (2 * m - j - 1)
  {
  }

  /** With B for the batch size and N for the request threads: (N+1)(B-1+N) - N(N-1)/2. */
  lemma UnsettledIs(c: Config)
    requires c.batchSize >= 1
    ensures 2 * Unsettled(c) == 2 * (c.requests + 1) * (c.batchSize - 1 + c.requests) - c.requests * (c.requests - 1)
  {
    RoomIs(c, c.requests);
    UnsettledAlgebra(c.batchSize, c.requests);
  }

  lemma UnsettledAlgebra(b: int, n: int)
    ensures n * (2 * b + 2 * n - n - 1) + 2 * (b - 1 + n) == 2 * (n + 1) * (b - 1 + n) - n * (n - 1)
  {
  }

  lemma {:induction false} RoomUp(c: Config, i: nat, j: nat)
    requires c.batchSize >= 1 && i <= j <= c.requests
    ensures Room(c, i) <= Room(c, j)
  {
    if i < j { RoomUp(c, i, j - 1); }
  }

  // ---------------------------------------------------------------- the order of the batches in flight

  /** The threads that serve requests. */
  function Servers(c: Config, s: State): seq<PC>
    requires |s.threads| == c.requests + 1
  {
    s.threads[..c.requests]
  }

  /** The thread is storing a batch drained before batch `n`. */
  function StoringBefore(n: nat): PC -> bool {
    (pc: PC) => pc.Inserting? && pc.k < n
  }

  /** A batch of a request thread leaves room for the threads that were already storing one. */
  ghost predicate Ranked(c: Config, s: State)
    requires c.batchSize >= 1
  {
    && |s.threads| == c.requests + 1
    && (forall i :: 0 <= i < c.requests && s.threads[i].Inserting? && s.threads[i].k < |s.batches| ==>
          |s.batches[s.threads[i].k]| + Count(Servers(c, s), StoringBefore(s.threads[i].k)) <= Largest(c))
    && ((forall i :: 0 <= i < c.requests ==> s.threads[i].Inserting?) ==> s.buffer == [])
  }

  lemma {:induction false} CountDisjoint(ts: seq<PC>, p: PC -> bool, q: PC -> bool)
    requires forall i :: 0 <= i < |ts| ==> !(p(ts[i]) && q(ts[i]))
    ensures Count(ts, p) + Count(ts, q) <= |ts|
  {
    if ts != [] { CountDisjoint(ts[1..], p, q); }
  }

  lemma {:induction false} CountFront(ts: seq<PC>, p: PC -> bool)
    requires ts != []
    ensures Count(ts, p) == Count(ts[..|ts| - 1], p) + if p(ts[|ts| - 1]) then 1 else 0
  {
    if |ts| == 1 {
      assert ts[..0] == [];
      assert Count(ts[1..], p) == 0;
    } else {
      CountFront(ts[1..], p);
      assert ts[1..][..|ts| - 2] == ts[..|ts| - 1][1..];
    }
  }

  /** One thread stops storing, or never was: no batch has more before it than it had. */
  lemma NoMoreBefore(c: Config, s: State, i: nat, pc: PC, n: nat)
    requires |s.threads| == c.requests + 1 && i < |s.threads|
    requires pc.Inserting? ==> n <= pc.k
    ensures Count(s.threads[i := pc][..c.requests], StoringBefore(n)) <= Count(Servers(c, s), StoringBefore(n))
  {
    if i < c.requests {
      assert s.threads[i := pc][..c.requests] == Servers(c, s)[i := pc];
      CountUpdate(Servers(c, s), i, pc, StoringBefore(n));
    } else {
      assert s.threads[i := pc][..c.requests] == Servers(c, s);
    }
  }

  /** A step that drains nothing keeps the order. */
  lemma QuietKeepsRanked(c: Config, s: State, t: State, i: nat, pc: PC)
    requires c.batchSize >= 1 && Ranked(c, s) && i < |s.threads| && !pc.Inserting?
    requires t.threads == s.threads[i := pc] && t.batches == s.batches
    requires i < c.requests || t.buffer == s.buffer || t.buffer == []
    ensures Ranked(c, t)
  {
    forall j | 0 <= j < c.requests && t.threads[j].Inserting? && t.threads[j].k < |t.batches|
      ensures |t.batches[t.threads[j].k]| + Count(Servers(c, t), StoringBefore(t.threads[j].k)) <= Largest(c)
    {
      assert s.threads[j] == t.threads[j];
      NoMoreBefore(c, s, i, pc, t.threads[j].k);
    }
    if i < c.requests {
      assert !t.threads[i].Inserting?;
    } else if forall j :: 0 <= j < c.requests ==> t.threads[j].Inserting? {
      forall j | 0 <= j < c.requests ensures s.threads[j].Inserting? { assert t.threads[j].Inserting?; }
    }
  }

  /** The batch a request thread drains leaves room for the threads storing one already. */
  lemma DrainedBatchRanks(c: Config, s: State, i: nat)
    requires GoodConfig(c) && Inv(c, s) && i < c.requests && s.threads[i].PendingFlush?
    ensures |s.buffer| + Count(Servers(c, s), StoringBefore(|s.batches|)) <= Largest(c)
  {
    CountFront(s.threads, IsPending());
    CountDisjoint(Servers(c, s), IsPending(), StoringBefore(|s.batches|));
  }

  lemma DrainKeepsRanked(c: Config, s: State, i: nat)
    requires GoodConfig(c) && Inv(c, s) && Ranked(c, s) && Enabled(c, s, Drain(i))
    ensures Ranked(c, Next(c, s, Drain(i)))
  {
    var t := Next(c, s, Drain(i));
    if s.buffer == [] {
      QuietKeepsRanked(c, s, t, i, Idle);
    } else {
      var n, pc := |s.batches|, Inserting(|s.batches|);
      if i < c.requests { DrainedBatchRanks(c, s, i); }
      forall j | 0 <= j < c.requests && t.threads[j].Inserting? && t.threads[j].k < |t.batches|
        ensures |t.batches[t.threads[j].k]| + Count(Servers(c, t), StoringBefore(t.threads[j].k)) <= Largest(c)
      {
        NoMoreBefore(c, s, i, pc, t.threads[j].k);
        if j != i { assert s.threads[j] == t.threads[j] && t.batches[s.threads[j].k] == s.batches[s.threads[j].k]; }
      }
    }
  }

  lemma {:induction false} StepKeepsRanked(c: Config, s: State, st: Step)
    requires GoodConfig(c) && Inv(c, s) && Ranked(c, s) && Enabled(c, s, st)
    ensures Ranked(c, Next(c, s, st))
  {
    if st.Advance? || st.Delete? {
      assert Servers(c, Next(c, s, st)) == Servers(c, s);
    } else if st.Drain? {
      DrainKeepsRanked(c, s, st.i);
    } else if st.Append? || st.Insert? {
      QuietKeepsRanked(c, s, Next(c, s, st), st.i, Next(c, s, st).threads[st.i]);
    } else {
      var i, pc, passed := OtherSteps(c, s, st);
      QuietKeepsRanked(c, s, Next(c, s, st), i, pc);
    }
  }

  lemma InitRanked(c: Config, now: int)
    requires GoodConfig(c)
    ensures Ranked(c, Init(c, now))
  {
  }

  // ---------------------------------------------------------------- what is in flight

  /** What a thread holds of the batches drained before batch `n`. */
  function HeldBefore(batches: seq<seq<Transaction>>, f: Transaction -> real, n: nat): PC -> real {
    (pc: PC) => if pc.Inserting? && pc.k < |batches| && pc.k < n then Weigh(batches[pc.k], f) else 0.0
  }

  lemma {:induction false} OneMoreBatch(ts: seq<PC>, batches: seq<seq<Transaction>>, f: Transaction -> real, n: nat)
    requires n < |batches|
    ensures Count(ts, StoringBefore(n + 1)) == Count(ts, StoringBefore(n)) + Count(ts, IsInserting(n))
    ensures Sum(ts, HeldBefore(batches, f, n + 1))
              == Sum(ts, HeldBefore(batches, f, n)) + Times(Count(ts, IsInserting(n)), Weigh(batches[n], f))
  {
    if ts != [] {
      OneMoreBatch(ts[1..], batches, f, n);
      assert IsInserting(n)(ts[0]) <==> ts[0] == Inserting(n);
    }
  }

  lemma {:induction false} CountFinds(ts: seq<PC>, p: PC -> bool) returns (i: nat)
    requires Count(ts, p) > 0
    ensures i < |ts| && p(ts[i])
  {
    if p(ts[0]) { i := 0; } else {
      var j := CountFinds(ts[1..], p);
      i := j + 1;
    }
  }

  /** Every batch weighs at most `cap` per transaction. */
  ghost predicate Weighted(s: State, f: Transaction -> real, cap: real) {
    cap >= 0.0 && forall k :: 0 <= k < |s.batches| ==> 0.0 <= Weigh(s.batches[k], f) <= Times(|s.batches[k]|, cap)
  }

  /** At most one request thread stores batch `n`, and its batch leaves room for those before it. */
  lemma OneBatchRanks(c: Config, s: State, n: nat)
    requires GoodConfig(c) && Inv(c, s) && Ranked(c, s) && EachOnce(s) && n < |s.batches|
    ensures Count(Servers(c, s), IsInserting(n)) <= 1
    ensures Count(Servers(c, s), IsInserting(n)) == 1 ==>
              Count(Servers(c, s), StoringBefore(n)) < c.requests &&
              |s.batches[n]| + Count(Servers(c, s), StoringBefore(n)) <= Largest(c)
  {
    var ts := Servers(c, s);
    assert OneFate(s, n);
    CountFront(s.threads, IsInserting(n));
    if Count(ts, IsInserting(n)) == 1 {
      var i := CountFinds(ts, IsInserting(n));
      assert s.threads[i] == Inserting(n);
      CountDisjoint(ts, IsInserting(n), StoringBefore(n));
    }
  }

  /** What the request threads hold of the batches before `n` fits into the room for as many threads. */
  ghost predicate Fits(c: Config, s: State, f: Transaction -> real, cap: real, n: nat)
    requires c.batchSize >= 1 && |s.threads| == c.requests + 1
  {
    var j := Count(Servers(c, s), StoringBefore(n));
    j <= c.requests && Sum(Servers(c, s), HeldBefore(s.batches, f, n)) <= Times(Room(c, j), cap)
  }

  lemma {:induction false} HeldFits(c: Config, s: State, f: Transaction -> real, cap: real, n: nat)
    requires GoodConfig(c) && Inv(c, s) && Ranked(c, s) && EachOnce(s) && Weighted(s, f, cap) && n <= |s.batches|
    ensures Fits(c, s, f, cap, n)
  {
    if n == 0 {
      NothingBefore(Servers(c, s), s.batches, f);
    } else {
      HeldFits(c, s, f, cap, n - 1);
      OneBatchRanks(c, s, n - 1);
      OneMoreFits(c, s, f, cap, n - 1);
    }
  }

  lemma OneMoreFits(c: Config, s: State, f: Transaction -> real, cap: real, n: nat)
    requires c.batchSize >= 1 && |s.threads| == c.requests + 1 && n < |s.batches|
    requires Fits(c, s, f, cap, n) && Weighted(s, f, cap) && Count(Servers(c, s), IsInserting(n)) <= 1
    requires Count(Servers(c, s), IsInserting(n)) == 1 ==>
               Count(Servers(c, s), StoringBefore(n)) < c.requests &&
               |s.batches[n]| + Count(Servers(c, s), StoringBefore(n)) <= Largest(c)
    ensures Fits(c, s, f, cap, n + 1)
  {
    var j := Count(Servers(c, s), StoringBefore(n));
    OneMoreBatch(Servers(c, s), s.batches, f, n);
    if Count(Servers(c, s), IsInserting(n)) == 1 {
      OneMoreRoom(c, j, |s.batches[n]|, cap);
      assert Times(1, Weigh(s.batches[n], f)) == Weigh(s.batches[n], f);
    }
  }

  lemma OneMoreRoom(c: Config, j: nat, size: nat, cap: real)
    requires c.batchSize >= 1 && j < c.requests && size + j <= Largest(c) && cap >= 0.0
    ensures Times(Room(c, j), cap) + Times(size, cap) <= Times(Room(c, j + 1), cap)
  {
    TimesUp(size, Largest(c) - j, cap);
    TimesPlus(Room(c, j), Largest(c) - j, cap);
  }

  lemma {:induction false} NothingBefore(ts: seq<PC>, batches: seq<seq<Transaction>>, f: Transaction -> real)
    ensures Sum(ts, HeldBefore(batches, f, 0)) == 0.0 && Count(ts, StoringBefore(0)) == 0
  {
    if ts != [] { NothingBefore(ts[1..], batches, f); }
  }

  lemma {:induction false} SumFront(ts: seq<PC>, g: PC -> real)
    requires ts != []
    ensures Sum(ts, g) == Sum(ts[..|ts| - 1], g) + g(ts[|ts| - 1])
  {
    if |ts| == 1 {
      assert ts[..0] == [] && ts[1..] == [];
      assert Sum(ts, g) == g(ts[0]) + Sum(ts[1..], g);
    } else {
      SumFront(ts[1..], g);
      assert ts[1..][..|ts| - 2] == ts[..|ts| - 1][1..];
    }
  }

  /** What all threads hold: the ticker's batch, and what fits for the request threads that are storing one. */
  lemma HeldByAll(c: Config, s: State, f: Transaction -> real, cap: real)
    requires GoodConfig(c) && Inv(c, s) && Ranked(c, s) && EachOnce(s) && Weighted(s, f, cap)
    ensures var j := Count(Servers(c, s), StoringBefore(|s.batches|));
            j <= c.requests && Sum(s.threads, Held(s.batches, f)) <= Times(Room(c, j) + Largest(c), cap)
  {
    var ts, ticker, n := Servers(c, s), s.threads[c.requests], |s.batches|;
    HeldFits(c, s, f, cap, n);
    SumFront(s.threads, Held(s.batches, f));
    SumOrder(ts, Held(s.batches, f), HeldBefore(s.batches, f, n));
    TimesPlus(Room(c, Count(ts, StoringBefore(n))), Largest(c), cap);
    TimesNotNegative(Largest(c), cap);
    if ticker.Inserting? { TimesUp(|s.batches[ticker.k]|, Largest(c), cap); }
  }
}
