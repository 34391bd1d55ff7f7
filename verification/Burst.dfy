/**
How the calls that nothing has stored yet pile up: the ticker and then one request thread after
another drain a batch and keep storing it, while the others go on.
*/
module Burst {
  import opened Common
  import opened Metering
  import opened Budget
  import opened Protocol
  import opened InFlight
  import opened Overshoot
  import opened Calls

  // ---------------------------------------------------------------- filling, draining, storing

  /**
  Request threads `0 .. m - 1` have yet to flush, `m .. p - 1` are idle and the others are storing a
  batch; the ticker is idle or, without `ticker`, storing one too.
  */
  ghost predicate Row(c: Config, s: State, m: nat, p: nat, ticker: bool) {
    && m <= p <= c.requests && |s.threads| == c.requests + 1
    && (if ticker then s.threads[c.requests].Idle? else s.threads[c.requests].Inserting?)
    && (forall i :: p <= i < c.requests ==> s.threads[i].Inserting?)
    && (forall i :: 0 <= i < m ==> s.threads[i].PendingFlush?)
    && (forall i :: m <= i < p ==> s.threads[i].Idle?)
  }

  /** How far a burst has come: calls made, calls buffered, threads yet to flush, threads that do not store a batch. */
  datatype Point = Point(calls: nat, buffered: nat, pending: nat, free: nat, ticker: bool)

  /** The threads left for calls once the ticker, or else one of them, stores a batch. */
  function Left(x: Point): nat
    requires x.free >= 1
  {
    if x.ticker then x.free else x.free - 1
  }

  /**
  What can happen next: a call that leaves the buffer short of a batch, one that does not, a thread
  that finds nothing to flush, and the drain of a batch once all free threads have a flush to do.
  */
  predicate Goes(c: Config, x: Point, y: Point) {
    || (x.pending == 0 && x.free >= 1 && x.buffered + 1 < c.batchSize &&
        y == x.(calls := x.calls + 1, buffered := x.buffered + 1))
    || (x.pending < x.free && x.buffered + 1 >= c.batchSize &&
        y == x.(calls := x.calls + 1, buffered := x.buffered + 1, pending := x.pending + 1))
    || (x.buffered == 0 && x.pending > 0 && y == x.(pending := x.pending - 1))
    || (x.buffered > 0 && x.pending == x.free >= 1 && y == Point(x.calls, 0, Left(x), Left(x), false))
  }

  predicate Way(c: Config, points: seq<Point>) {
    points != [] && forall i :: 0 <= i < |points| - 1 ==> Goes(c, points[i], points[i + 1])
  }

  ghost predicate CanGo(c: Config, x: Point, y: Point) {
    exists points :: Way(c, points) && points[0] == x && points[|points| - 1] == y
  }

  lemma GoNowhere(c: Config, x: Point)
    ensures CanGo(c, x, x)
  {
    assert Way(c, [x]);
  }

  lemma GoOn(c: Config, x: Point, y: Point, z: Point)
    requires Goes(c, x, y) && CanGo(c, y, z)
    ensures CanGo(c, x, z)
  {
    var rest :| Way(c, rest) && rest[0] == y && rest[|rest| - 1] == z;
    assert Way(c, [x] + rest);
  }

  lemma GoVia(c: Config, x: Point, y: Point, z: Point)
    requires CanGo(c, x, y) && CanGo(c, y, z)
    ensures CanGo(c, x, z)
  {
    var first :| Way(c, first) && first[0] == x && first[|first| - 1] == y;
    WayOn(c, first, z);
  }

  lemma {:induction false} WayOn(c: Config, points: seq<Point>, z: Point)
    requires Way(c, points) && CanGo(c, points[|points| - 1], z)
    ensures CanGo(c, points[0], z)
  {
    if |points| > 1 {
      WayOn(c, points[1..], z);
      GoOn(c, points[0], points[1], z);
    }
  }

  /** One thread can make calls until the buffer is one short of a batch. */
  lemma {:induction false} FillUp(c: Config, x: Point, n: nat)
    requires x.pending == 0 && x.free >= 1 && x.buffered + n < c.batchSize
    ensures CanGo(c, x, x.(calls := x.calls + n, buffered := x.buffered + n))
    decreases n
  {
    if n == 0 {
      GoNowhere(c, x);
    } else {
      var y := x.(calls := x.calls + 1, buffered := x.buffered + 1);
      FillUp(c, y, n - 1);
      GoOn(c, x, y, x.(calls := x.calls + n, buffered := x.buffered + n));
    }
  }

  /** Then every idle thread can make one more, and has yet to flush. */
  lemma {:induction false} PendAll(c: Config, x: Point)
    requires x.pending <= x.free && x.buffered + 1 >= c.batchSize
    ensures var n := x.free - x.pending;
            CanGo(c, x, x.(calls := x.calls + n, buffered := x.buffered + n, pending := x.free))
    decreases x.free - x.pending
  {
    var n := x.free - x.pending;
    if n == 0 {
      GoNowhere(c, x);
    } else {
      var y := x.(calls := x.calls + 1, buffered := x.buffered + 1, pending := x.pending + 1);
      PendAll(c, y);
      GoOn(c, x, y, x.(calls := x.calls + n, buffered := x.buffered + n, pending := x.free));
    }
  }

  /** Once the buffer is drained, the threads that have yet to flush find nothing in it. */
  lemma {:induction false} IdleAgain(c: Config, x: Point)
    requires x.buffered == 0
    ensures CanGo(c, x, x.(pending := 0))
    decreases x.pending
  {
    if x.pending == 0 {
      GoNowhere(c, x);
    } else {
      IdleAgain(c, x.(pending := x.pending - 1));
      GoOn(c, x, x.(pending := x.pending - 1), x.(pending := 0));
    }
  }

  /** With `free` threads idle a batch of `batchSize - 1 + free` calls can be gathered and drained. */
  lemma Round(c: Config, x: Point)
    requires c.batchSize >= 1 && x.buffered == x.pending == 0 && x.free >= 1
    ensures CanGo(c, x, Point(x.calls + c.batchSize - 1 + x.free, 0, 0, Left(x), false))
  {
    var b, left := c.batchSize - 1, Left(x);
    var filled := x.(calls := x.calls + b, buffered := b);
    var pending := x.(calls := x.calls + b + x.free, buffered := b + x.free, pending := x.free);
    var drained := Point(x.calls + b + x.free, 0, left, left, false);
    FillUp(c, x, b);
    PendAll(c, filled);
    IdleAgain(c, drained);
    GoOn(c, pending, drained, drained.(pending := 0));
    GoVia(c, x, filled, pending);
    GoVia(c, x, pending, drained.(pending := 0));
  }

  /** One request thread after another drains a batch and keeps storing it. */
  lemma {:induction false} Rounds(c: Config, calls: nat, j: nat)
    requires c.batchSize >= 1 && j <= c.requests
    ensures CanGo(c, Point(calls, 0, 0, c.requests, false), Point(calls + Room(c, j), 0, 0, c.requests - j, false))
  {
    if j == 0 {
      GoNowhere(c, Point(calls, 0, 0, c.requests, false));
    } else {
      var y := Point(calls + Room(c, j - 1), 0, 0, c.requests - (j - 1), false);
      Rounds(c, calls, j - 1);
      Round(c, y);
      GoVia(c, Point(calls, 0, 0, c.requests, false), y, Point(calls + Room(c, j), 0, 0, c.requests - j, false));
    }
  }

  /** With nothing in flight, a batch of the ticker and one of every request thread can come to be stored at once. */
  lemma AllInFlight(c: Config)
    requires c.batchSize >= 1 && c.requests >= 1
    ensures CanGo(c, Point(0, 0, 0, c.requests, true), Point(Unsettled(c), 0, 0, 0, false))
  {
    Round(c, Point(0, 0, 0, c.requests, true));
    Rounds(c, Largest(c), c.requests);
    GoVia(c, Point(0, 0, 0, c.requests, true), Point(Largest(c), 0, 0, c.requests, false),
          Point(Unsettled(c), 0, 0, 0, false));
  }

  // ---------------------------------------------------------------- the protocol goes there

  /** A watched limit at an instant, an agent that calls at `cap` each, and what is stored and was deleted. */
  datatype Scene = Scene(c: Config, w: Watch, at: int, agentID: string, stored: real, forgotten: real, cap: real,
                         gone: set<Owner>)

  ghost predicate GoodScene(e: Scene) {
    GoodConfig(e.c) && e.cap >= 0.0 && e.stored < e.w.limit && 0.0 < e.w.limit
  }

  /** The books after so many calls that are not stored. */
  function BooksAfter(e: Scene, calls: nat): Books {
    Books(e.stored + e.forgotten + Times(calls, e.cap), e.stored, e.forgotten)
  }

  ghost predicate IsAt(e: Scene, s: State, x: Point) {
    (Stage(e.c, e.w, s, e.at, e.agentID, BooksAfter(e, x.calls)),
     Row(e.c, s, x.pending, x.free, x.ticker),
     |s.buffer|, s.gone) == (true, true, x.buffered, e.gone)
  }

  lemma CalledRow(e: Scene, s: State, x: Point, y: Point, tx: Transaction, passed: seq<Pass>)
    requires Row(e.c, s, x.pending, x.free, x.ticker) && |s.buffer| == x.buffered
    requires Goes(e.c, x, y) && y.calls == x.calls + 1
    ensures Row(e.c, Called(e.c, s, x.pending, tx, passed), y.pending, y.free, y.ticker)
  {
  }

  lemma AtCanStart(e: Scene, s: State, x: Point)
    requires GoodScene(e) && IsAt(e, s, x) && x.pending < x.free
    ensures CanStart(e.c, e.w, s, e.agentID, x.pending) && s.now == e.at
  {
  }

  lemma CalledAt(e: Scene, s: State, x: Point, y: Point, passed: seq<Pass>)
    requires IsAt(e, s, x) && Goes(e.c, x, y) && y.calls == x.calls + 1 && UnguardedIn(e.c, e.w, passed) == 0
    requires x.pending < |s.threads|
    ensures IsAt(e, Called(e.c, s, x.pending, Transaction(e.at, CallOn(e.w, e.agentID, e.cap)), passed), y)
  {
    CalledStage(e.c, e.w, s, e.at, e.agentID, BooksAfter(e, x.calls), x.pending, e.cap, passed);
    CalledRow(e, s, x, y, Transaction(e.at, CallOn(e.w, e.agentID, e.cap)), passed);
    assert BooksAfter(e, x.calls).spent + e.cap == BooksAfter(e, y.calls).spent;
  }

  lemma DrainedRow(e: Scene, s: State, x: Point, y: Point) returns (i: nat)
    requires Row(e.c, s, x.pending, x.free, x.ticker) && |s.buffer| == x.buffered
    requires Goes(e.c, x, y) && y.calls == x.calls
    ensures Enabled(e.c, s, Drain(i))
    ensures Row(e.c, Next(e.c, s, Drain(i)), y.pending, y.free, y.ticker) && Next(e.c, s, Drain(i)).buffer == []
  {
    i := if x.buffered == 0 then x.pending - 1 else if x.ticker then e.c.requests else x.free - 1;
  }

  lemma DrainedStage(c: Config, w: Watch, s: State, at: int, agentID: string, b: Books, i: nat)
    requires Stage(c, w, s, at, agentID, b) && Enabled(c, s, Drain(i))
    ensures Stage(c, w, Next(c, s, Drain(i)), at, agentID, b)
  {
    if s.buffer != [] { GatherOld(s.batches, s.buffer, s.inserted); }
  }

  /** From a state at one point, some run leads to a state at another. */
  ghost predicate Reaches(e: Scene, s: State, t: State, y: Point) {
    (Leads(e.c, s, t, e.cap), IsAt(e, t, y)) == (true, true)
  }

  lemma DrainGoes(e: Scene, s: State, x: Point, y: Point) returns (t: State)
    requires IsAt(e, s, x) && Goes(e.c, x, y) && y.calls == x.calls
    ensures Reaches(e, s, t, y)
  {
    var i := DrainedRow(e, s, x, y);
    t := Next(e.c, s, Drain(i));
    DrainedStage(e.c, e.w, s, e.at, e.agentID, BooksAfter(e, x.calls), i);
    LeadsByStep(e.c, s, Drain(i), e.cap);
  }

  lemma CallGoes(e: Scene, s: State, x: Point, y: Point) returns (t: State)
    requires GoodScene(e) && IsAt(e, s, x) && Goes(e.c, x, y) && y.calls == x.calls + 1
    ensures Reaches(e, s, t, y)
  {
    AtCanStart(e, s, x);
    var passed := CallLeads(e.c, e.w, s, e.agentID, x.pending, e.cap, e.cap);
    CalledAt(e, s, x, y, passed);
    t := Called(e.c, s, x.pending, Transaction(e.at, CallOn(e.w, e.agentID, e.cap)), passed);
  }

  lemma ReachesVia(e: Scene, s: State, t: State, u: State, y: Point, z: Point)
    requires Reaches(e, s, t, y) && Reaches(e, t, u, z)
    ensures Reaches(e, s, u, z)
  {
    LeadsVia(e.c, s, t, u, e.cap);
  }

  lemma {:induction false} GoesAllTheWay(e: Scene, s: State, points: seq<Point>) returns (t: State)
    requires GoodScene(e) && Way(e.c, points) && IsAt(e, s, points[0])
    ensures Reaches(e, s, t, points[|points| - 1])
    decreases |points|
  {
    if |points| == 1 {
      t := s;
      LeadsNowhere(e.c, s, e.cap);
    } else {
      var u;
      if points[1].calls == points[0].calls {
        u := DrainGoes(e, s, points[0], points[1]);
      } else {
        u := CallGoes(e, s, points[0], points[1]);
      }
      t := GoesAllTheWay(e, u, points[1..]);
      ReachesVia(e, s, u, t, points[1], points[|points| - 1]);
    }
  }

  lemma GoesThere(e: Scene, s: State, x: Point, y: Point) returns (t: State)
    requires GoodScene(e) && IsAt(e, s, x) && CanGo(e.c, x, y)
    ensures Leads(e.c, s, t, e.cap) && IsAt(e, t, y)
  {
    var points :| Way(e.c, points) && points[0] == x && points[|points| - 1] == y;
    t := GoesAllTheWay(e, s, points);
  }
}
