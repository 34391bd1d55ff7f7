/**
Sweeps of the login limiter in two steps.  The sweep tests an entry under the entry's lock and
deletes it from the table afterwards, so attempts can come in between; here are the attempts of one
address and what the sweeps do to its entry.
*/
module SweepRaces {
  import opened Common
  import opened LoginLimiter

  /** A test looks at the clock reading the sweep began with. */
  datatype Step =
    | Try(time: int)
    | Test(time: int, began: int)
    | Drop(time: int)

  /** The entry of the address, and whether the sweep is about to delete it. */
  datatype State = State(entry: Option<Entry>, doomed: bool)

  function Does(s: State, r: Rule, st: Step): State {
    match st
    case Try(t) => s.(entry := Some(Attempt(s.entry, r, t).0))
    case Test(_, began) => s.(doomed := s.entry.Some? && Expired(s.entry.value, r, began))
    case Drop(_) => if s.doomed then State(None, false) else s
  }

  predicate Admits(s: State, r: Rule, st: Step) {
    st.Try? && Attempt(s.entry, r, st.time).1.allowed
  }

  /** The sweep deletes an entry whose window is running: an attempt restarted it after the test. */
  predicate DropsLive(s: State, r: Rule, st: Step) {
    st.Drop? && s.doomed && s.entry.Some? && !Expired(s.entry.value, r, st.time)
  }

  predicate Within(st: Step, from: int, to: int) {
    from <= st.time <= to
  }

  /** The attempts admitted inside the closed interval. */
  function Admitted(s: State, r: Rule, steps: seq<Step>, from: int, to: int): nat
    decreases |steps|
  {
    if steps == [] then 0
    else (if Admits(s, r, steps[0]) && Within(steps[0], from, to) then 1 else 0) +
         Admitted(Does(s, r, steps[0]), r, steps[1..], from, to)
  }

  /** The running windows that sweeps delete inside it. */
  function LiveDrops(s: State, r: Rule, steps: seq<Step>, from: int, to: int): nat
    decreases |steps|
  {
    if steps == [] then 0
    else (if DropsLive(s, r, steps[0]) && Within(steps[0], from, to) then 1 else 0) +
         LiveDrops(Does(s, r, steps[0]), r, steps[1..], from, to)
  }

  predicate ClockRuns(steps: seq<Step>) {
    && (forall i, j :: 0 <= i < j < |steps| ==> steps[i].time <= steps[j].time)
    && (forall i :: 0 <= i < |steps| && steps[i].Test? ==> steps[i].began <= steps[i].time)
  }

  lemma {:induction false} NoneAdmittedLater(s: State, r: Rule, steps: seq<Step>, from: int, to: int)
    requires forall i :: 0 <= i < |steps| ==> to < steps[i].time
    ensures Admitted(s, r, steps, from, to) == 0
    decreases |steps|
  {
    if steps != [] { NoneAdmittedLater(Does(s, r, steps[0]), r, steps[1..], from, to); }
  }

  /** The entry attempts are counted on: the one in the table, or one deleted after its window ran out. */
  predicate CountsOn(s: State, e: Entry, r: Rule, now: int) {
    s.entry == Some(e) || (s.entry.None? && Expired(e, r, now))
  }

  /**
  With room for `left` further windows to start up to `to`: what is left of this window, a full limit
  for each further one, and a full limit for every running window that is deleted.
  */
  lemma {:induction false} AdmittedFrom(s: State, e: Entry, r: Rule, steps: seq<Step>, from: int, to: int, left: nat,
                                        now: int)
    requires r.limit >= 0 && r.window > 0 && ClockRuns(steps) && 0 <= e.count <= r.limit && e.start <= now
    requires CountsOn(s, e, r, now) && (|steps| > 0 ==> now <= steps[0].time) && from <= now
    requires to < e.start + (left + 1) * r.window
    ensures Admitted(s, r, steps, from, to)
              <= r.limit - e.count + left * r.limit + LiveDrops(s, r, steps, from, to) * r.limit
    decreases |steps|
  {
    MulMono(0, left, r.limit);
    MulMono(0, LiveDrops(s, r, steps, from, to), r.limit);
    if steps != [] {
      var st, t := steps[0], steps[0].time;
      if to < t {
        NoneAdmittedLater(s, r, steps, from, to);
      } else if st.Try? {
        TryFrom(s, e, r, steps, from, to, left);
      } else if DropsLive(s, r, st) {
        DropFrom(s, e, r, steps, from, to, left);
      } else {
        AdmittedFrom(Does(s, r, st), e, r, steps[1..], from, to, left, t);
      }
    }
  }

  lemma {:induction false} TryFrom(s: State, e: Entry, r: Rule, steps: seq<Step>, from: int, to: int, left: nat)
    requires steps != [] && steps[0].Try? && steps[0].time <= to && from <= steps[0].time && e.start <= steps[0].time
    requires r.limit >= 0 && r.window > 0 && ClockRuns(steps) && 0 <= e.count <= r.limit
    requires CountsOn(s, e, r, steps[0].time) && to < e.start + (left + 1) * r.window
    ensures Admitted(s, r, steps, from, to)
              <= r.limit - e.count + left * r.limit + LiveDrops(s, r, steps, from, to) * r.limit
    decreases |steps|, 0
  {
    var t, s1 := steps[0].time, Does(s, r, steps[0]);
    var e1 := Attempt(s.entry, r, t).0;
    if Expired(e, r, t) {
      assert left == 0 ==> (left + 1) * r.window == r.window;
      assert left >= 1;
      assert (left + 1) * r.window == left * r.window + r.window;
      assert left * r.limit == (left - 1) * r.limit + r.limit;
      AdmittedFrom(s1, e1, r, steps[1..], from, to, left - 1, t);
    } else {
      AdmittedFrom(s1, e1, r, steps[1..], from, to, left, t);
    }
  }

  /** A deleted running window: the next attempt starts another, later than the one deleted. */
  lemma {:induction false} DropFrom(s: State, e: Entry, r: Rule, steps: seq<Step>, from: int, to: int, left: nat)
    requires steps != [] && DropsLive(s, r, steps[0]) && steps[0].time <= to && from <= steps[0].time
    requires r.limit >= 0 && r.window > 0 && ClockRuns(steps) && 0 <= e.count <= r.limit && e.start <= steps[0].time
    requires s.entry == Some(e) && to < e.start + (left + 1) * r.window
    ensures Admitted(s, r, steps, from, to)
              <= r.limit - e.count + left * r.limit + LiveDrops(s, r, steps, from, to) * r.limit
    decreases |steps|, 0
  {
    var s1, d := Does(s, r, steps[0]), LiveDrops(Does(s, r, steps[0]), r, steps[1..], from, to);
    AdmittedFromNone(s1, r, steps[1..], from, to, left, steps[0].time);
    assert (d + 1) * r.limit == d * r.limit + r.limit;
  }

  /** Without an entry the next attempt starts a window. */
  lemma {:induction false} AdmittedFromNone(s: State, r: Rule, steps: seq<Step>, from: int, to: int, left: nat,
                                            now: int)
    requires r.limit >= 0 && r.window > 0 && ClockRuns(steps) && s.entry.None? && from <= now
    requires (|steps| > 0 ==> now <= steps[0].time) && to < now + (left + 1) * r.window
    ensures Admitted(s, r, steps, from, to) <= r.limit + left * r.limit + LiveDrops(s, r, steps, from, to) * r.limit
    decreases |steps|
  {
    MulMono(0, left, r.limit);
    MulMono(0, LiveDrops(s, r, steps, from, to), r.limit);
    if steps != [] {
      var st, t := steps[0], steps[0].time;
      if to < t {
        NoneAdmittedLater(s, r, steps, from, to);
      } else if st.Try? {
        AdmittedFrom(Does(s, r, st), Attempt(None, r, t).0, r, steps[1..], from, to, left, t);
      } else {
        AdmittedFromNone(Does(s, r, st), r, steps[1..], from, to, left, t);
      }
    }
  }

  predicate GoodEntry(s: State, r: Rule, now: int) {
    s.entry.Some? ==> 0 <= s.entry.value.count <= r.limit && s.entry.value.start <= now
  }

  lemma {:induction false} RacedSumBound(s: State, r: Rule, steps: seq<Step>, from: int, to: int, k: nat, now: int)
    requires r.limit >= 0 && r.window > 0 && ClockRuns(steps) && to - from <= k * r.window
    requires GoodEntry(s, r, now) && (|steps| > 0 ==> now <= steps[0].time)
    ensures Admitted(s, r, steps, from, to) <= r.limit + k * r.limit + LiveDrops(s, r, steps, from, to) * r.limit
    decreases |steps|
  {
    MulMono(0, k, r.limit);
    MulMono(0, LiveDrops(s, r, steps, from, to), r.limit);
    if steps != [] {
      var st, t := steps[0], steps[0].time;
      if to < t {
        NoneAdmittedLater(s, r, steps, from, to);
      } else if t < from || (!st.Try? && !DropsLive(s, r, st)) {
        RacedSumBound(Does(s, r, st), r, steps[1..], from, to, k, t);
      } else {
        FirstInside(s, r, steps, from, to, k);
      }
    }
  }

  /**
  However sweeps and attempts interleave, a closed interval as long as k windows admits at most
  (k + 1) limits, and one limit more for every running window that a sweep deletes inside it.
  */
  lemma RacedIntervalBound(s: State, r: Rule, steps: seq<Step>, from: int, to: int, k: nat, now: int)
    requires r.limit >= 0 && r.window > 0 && ClockRuns(steps) && to - from <= k * r.window
    requires GoodEntry(s, r, now) && (|steps| > 0 ==> now <= steps[0].time)
    ensures Admitted(s, r, steps, from, to) <= (k + 1 + LiveDrops(s, r, steps, from, to)) * r.limit
  {
    RacedSumBound(s, r, steps, from, to, k, now);
    SumOfLimits(k, LiveDrops(s, r, steps, from, to), r.limit);
  }

  lemma SumOfLimits(k: int, d: int, limit: int)
    ensures (k + 1 + d) * limit == limit + k * limit + d * limit
  {
  }

  /** The first attempt, or deletion of a running window, inside the interval. */
  lemma {:induction false} FirstInside(s: State, r: Rule, steps: seq<Step>, from: int, to: int, k: nat)
    requires steps != [] && from <= steps[0].time <= to && (steps[0].Try? || DropsLive(s, r, steps[0]))
    requires r.limit >= 0 && r.window > 0 && ClockRuns(steps) && to - from <= k * r.window
    requires GoodEntry(s, r, steps[0].time)
    ensures Admitted(s, r, steps, from, to) <= r.limit + k * r.limit + LiveDrops(s, r, steps, from, to) * r.limit
  {
    assert (k + 1) * r.window == k * r.window + r.window;
    var t, s1 := steps[0].time, Does(s, r, steps[0]);
    var d := LiveDrops(s1, r, steps[1..], from, to);
    if steps[0].Try? {
      var e := Attempt(s.entry, r, t).0;
      AdmittedAfterFirst(s, e, r, steps, from, to, k);
    } else {
      AdmittedFromNone(s1, r, steps[1..], from, to, k, t);
      assert (d + 1) * r.limit == d * r.limit + r.limit;
    }
  }

  lemma {:induction false} AdmittedAfterFirst(s: State, e: Entry, r: Rule, steps: seq<Step>, from: int, to: int, k: nat)
    requires steps != [] && from <= steps[0].time <= to && steps[0].Try? && e == Attempt(s.entry, r, steps[0].time).0
    requires r.limit >= 0 && r.window > 0 && ClockRuns(steps) && to - from <= k * r.window
    requires GoodEntry(s, r, steps[0].time)
    ensures Admitted(s, r, steps, from, to) <= r.limit + k * r.limit + LiveDrops(s, r, steps, from, to) * r.limit
  {
    var t, s1 := steps[0].time, Does(s, r, steps[0]);
    assert (k + 1) * r.window == k * r.window + r.window;
    assert e.start > t - r.window;
    AdmittedFrom(s1, e, r, steps[1..], from, to, k, t);
  }

  // ---------------------------------------------------------------- the bound is attained

  function Tries(t: int, n: nat): seq<Step> {
    seq(n, i => Step.Try(t))
  }

  /** Attempts at one instant on a window with room for them are all admitted. */
  lemma {:induction false} TriesAdmitted(e: Option<Entry>, doomed: bool, r: Rule, t: int, n: nat, rest: seq<Step>)
    requires r.window > 0 && n <= r.limit && (e.Some? ==> e.value.start == t && 0 <= e.value.count <= r.limit - n)
    requires n == 0 ==> e.Some?
    ensures var c := if e.Some? then e.value.count else 0;
            Admitted(State(e, doomed), r, Tries(t, n) + rest, t, t)
              == n + Admitted(State(Some(Entry(c + n, t)), doomed), r, rest, t, t)
    decreases n
  {
    if n == 0 {
      assert Tries(t, 0) + rest == rest;
    } else {
      var steps := Tries(t, n) + rest;
      assert steps[0] == Step.Try(t) && steps[1..] == Tries(t, n - 1) + rest;
      var e1 := Attempt(e, r, t).0;
      TriesAdmitted(Some(e1), doomed, r, t, n - 1, rest);
    }
  }

  /**
  An entry that has run out, a test, a full limit of attempts, the delete, and a full limit again: one
  instant admits two limits.
  */
  lemma DropAdmitsAnotherLimit(r: Rule, stale: Entry, t: int)
    requires r.window > 0 && r.limit >= 1 && Expired(stale, r, t)
    ensures var steps := [Test(t, t)] + (Tries(t, r.limit) + ([Drop(t)] + (Tries(t, r.limit) + [])));
            Admitted(State(Some(stale), false), r, steps, t, t) == 2 * r.limit
  {
    var second := Tries(t, r.limit) + [];
    var middle := [Drop(t)] + second;
    var first := Tries(t, r.limit) + middle;
    assert ([Test(t, t)] + first)[1..] == first && middle[1..] == second;
    assert first[0] == Step.Try(t) && first[1..] == Tries(t, r.limit - 1) + middle;
    TriesAdmitted(Some(Entry(1, t)), true, r, t, r.limit - 1, middle);
    TriesAdmitted(None, false, r, t, r.limit, []);
  }
}
