/**
The login limiter: a fixed window per client address, restarted by the first
attempt after it has run out, with a background sweep that drops stale entries.
Time is in nanoseconds.
*/
module LoginLimiter {
  import opened Common

  const SECOND: int := 1_000_000_000

  datatype Entry = Entry(count: int, start: int)

  /** The configured limit and window. */
  datatype Rule = Rule(limit: int, window: int)

  datatype Answer = Answer(allowed: bool, retryAfter: int)

  function Expired(e: Entry, r: Rule, now: int): bool {
    now - e.start >= r.window
  }

  /** The entry an attempt works on: found or new, and restarted when its window has run out. */
  function Current(o: Option<Entry>, r: Rule, now: int): Entry {
    match o
    case None => Entry(0, now)
    case Some(e) => if Expired(e, r, now) then Entry(0, now) else e
  }

  function CeilSeconds(d: int): int {
    -((-d) / SECOND)
  }

  function Attempt(o: Option<Entry>, r: Rule, now: int): (Entry, Answer) {
    var e := Current(o, r, now);
    if e.count >= r.limit then
      var wait := CeilSeconds(r.window - (now - e.start));
      (e, Answer(false, if wait < 1 then 1 else wait))
    else
      (e.(count := e.count + 1), Answer(true, 0))
  }

  // ---------------------------------------------------------------- runs of one address

  /** Attempts on one address at the given times, from entry `o`. */
  function Answers(o: Option<Entry>, r: Rule, times: seq<int>): (a: seq<Answer>)
    ensures |a| == |times|
    decreases |times|
  {
    if times == [] then []
    else
      var (e, ans) := Attempt(o, r, times[0]);
      [ans] + Answers(Some(e), r, times[1..])
  }

  predicate Monotone(times: seq<int>) {
    forall i, j :: 0 <= i < j < |times| ==> times[i] <= times[j]
  }

  /** Admitted attempts inside the closed interval [from, to]. */
  function AdmittedWithin(times: seq<int>, a: seq<Answer>, from: int, to: int): nat
    requires |times| == |a|
  {
    if times == [] then 0
    else (if a[0].allowed && from <= times[0] <= to then 1 else 0) + AdmittedWithin(times[1..], a[1..], from, to)
  }

  lemma {:induction false} NoneLater(times: seq<int>, a: seq<Answer>, from: int, to: int)
    requires |times| == |a| && forall i :: 0 <= i < |times| ==> to < times[i]
    ensures AdmittedWithin(times, a, from, to) == 0
  {
    if times != [] { NoneLater(times[1..], a[1..], from, to); }
  }

  /**
  From an entry whose window started at `e.start`, with room for at most `left`
  further windows to start up to `to`, admissions are what is left of this window
  and a full limit for each further one.
  */
  lemma {:induction false} AdmittedFrom(e: Entry, r: Rule, times: seq<int>, from: int, to: int, left: nat)
    requires r.limit >= 0 && r.window > 0 && Monotone(times) && 0 <= e.count <= r.limit
    requires |times| > 0 ==> e.start <= times[0]
    requires to < e.start + (left + 1) * r.window
    ensures AdmittedWithin(times, Answers(Some(e), r, times), from, to) <= r.limit - e.count + left * r.limit
    decreases |times|
  {
    MulMono(0, left, r.limit);
    var a := Answers(Some(e), r, times);
    if times != [] {
      var t := times[0];
      var e1 := Attempt(Some(e), r, t).0;
      if to < t {
        NoneLater(times, a, from, to);
      } else if Expired(e, r, t) {
        assert left == 0 ==> (left + 1) * r.window == r.window;
        assert left >= 1;
        assert (left + 1) * r.window == left * r.window + r.window;
        assert left * r.limit == (left - 1) * r.limit + r.limit;
        AdmittedFrom(e1, r, times[1..], from, to, left - 1);
      } else {
        AdmittedFrom(e1, r, times[1..], from, to, left);
      }
    }
  }

  /** A closed interval as long as k windows admits at most (k + 1) * limit attempts of one address. */
  lemma {:induction false} IntervalBound(o: Option<Entry>, r: Rule, times: seq<int>, from: int, to: int, k: nat)
    requires r.limit >= 0 && r.window > 0 && Monotone(times) && to - from <= k * r.window
    requires o.Some? ==> 0 <= o.value.count <= r.limit && (|times| > 0 ==> o.value.start <= times[0])
    ensures AdmittedWithin(times, Answers(o, r, times), from, to) <= (k + 1) * r.limit
    decreases |times|
  {
    MulMono(0, k, r.limit);
    assert (k + 1) * r.limit == k * r.limit + r.limit;
    var a := Answers(o, r, times);
    if times != [] {
      var t := times[0];
      var e1 := Attempt(o, r, t).0;
      if t < from {
        IntervalBound(Some(e1), r, times[1..], from, to, k);
      } else {
        assert (k + 1) * r.window == k * r.window + r.window;
        var e := Current(o, r, t);
        AdmittedFrom(e, r, times, from, to, k);
        assert Attempt(o, r, t) == Attempt(Some(e), r, t);
        assert Answers(Some(e), r, times) == a;
      }
    }
  }

  // ---------------------------------------------------------------- the whole table

  type Table = map<string, Entry>

  datatype Event = Try(ip: string, time: int) | Sweep(time: int)

  function Swept(m: Table, r: Rule, now: int): Table {
    map ip | ip in m && !Expired(m[ip], r, now) :: m[ip]
  }

  function Next(m: Table, r: Rule, ev: Event): Table {
    match ev
    case Try(ip, t) => m[ip := Attempt(Lookup(m, ip), r, t).0]
    case Sweep(t) => Swept(m, r, t)
  }

  /** The answers one address gets in a run of attempts by all addresses and of sweeps. */
  function AnswersTo(m: Table, r: Rule, evs: seq<Event>, ip: string): seq<Answer>
    decreases |evs|
  {
    if evs == [] then []
    else
      var rest := AnswersTo(Next(m, r, evs[0]), r, evs[1..], ip);
      if evs[0].Try? && evs[0].ip == ip then [Attempt(Lookup(m, ip), r, evs[0].time).1] + rest else rest
  }

  function TimesOf(evs: seq<Event>, ip: string): seq<int> {
    if evs == [] then []
    else if evs[0].Try? && evs[0].ip == ip then [evs[0].time] + TimesOf(evs[1..], ip)
    else TimesOf(evs[1..], ip)
  }

  predicate ClockRuns(evs: seq<Event>) {
    forall i, j :: 0 <= i < j < |evs| ==> evs[i].time <= evs[j].time
  }

  /** `o` may still remember an entry that a sweep dropped because it had expired by `now`. */
  predicate SameButSwept(m: Table, o: Option<Entry>, r: Rule, ip: string, now: int) {
    Lookup(m, ip) == o || (ip !in m && o.Some? && Expired(o.value, r, now))
  }

  /**
  Sweeps inserted anywhere, and the attempts of other addresses, change no
  answer: an address is answered as if it were alone and nothing were ever swept.
  */
  lemma {:induction false} EachAddressAlone(m: Table, o: Option<Entry>, r: Rule, evs: seq<Event>, ip: string, now: int)
    requires ClockRuns(evs) && SameButSwept(m, o, r, ip, now) && r.window > 0
    requires |evs| > 0 ==> now <= evs[0].time
    ensures AnswersTo(m, r, evs, ip) == Answers(o, r, TimesOf(evs, ip))
    decreases |evs|
  {
    if evs != [] {
      var m1 := Next(m, r, evs[0]);
      if evs[0].Try? && evs[0].ip == ip {
        var (e, ans) := Attempt(o, r, evs[0].time);
        assert Attempt(Lookup(m, ip), r, evs[0].time) == (e, ans);
        EachAddressAlone(m1, Some(e), r, evs[1..], ip, evs[0].time);
        assert TimesOf(evs, ip)[1..] == TimesOf(evs[1..], ip);
      } else {
        EachAddressAlone(m1, o, r, evs[1..], ip, evs[0].time);
      }
    }
  }

  lemma {:induction false} TimesInOrder(evs: seq<Event>, ip: string, now: int)
    requires ClockRuns(evs) && forall i :: 0 <= i < |evs| ==> now <= evs[i].time
    ensures Monotone(TimesOf(evs, ip)) && forall i :: 0 <= i < |TimesOf(evs, ip)| ==> now <= TimesOf(evs, ip)[i]
    decreases |evs|
  {
    if evs != [] {
      TimesInOrder(evs[1..], ip, evs[0].time);
    }
  }

  /** The interval bound for one address in any run of the whole table, sweeps included. */
  lemma {:induction false} TableIntervalBound(r: Rule, evs: seq<Event>, ip: string, from: int, to: int, k: nat)
    requires r.limit >= 0 && r.window > 0 && ClockRuns(evs) && to - from <= k * r.window
    ensures |AnswersTo(map[], r, evs, ip)| == |TimesOf(evs, ip)|
    ensures AdmittedWithin(TimesOf(evs, ip), AnswersTo(map[], r, evs, ip), from, to) <= (k + 1) * r.limit
  {
    var start := if evs == [] then 0 else evs[0].time;
    EachAddressAlone(map[], None, r, evs, ip, start);
    TimesInOrder(evs, ip, start);
    IntervalBound(None, r, TimesOf(evs, ip), from, to, k);
  }

  /**
  After a refusal the reported wait is the least whole number of seconds after
  which the next attempt is admitted.
  */
  lemma {:induction false} RetryAfterIsLeast(o: Option<Entry>, r: Rule, now: int, s: nat)
    requires r.limit >= 1 && r.window > 0 && !Attempt(o, r, now).1.allowed
    requires o.Some? ==> o.value.start <= now
    ensures var (e, ans) := Attempt(o, r, now);
            Attempt(Some(e), r, now + s * SECOND).1.allowed <==> s >= ans.retryAfter
  {
    var (e, ans) := Attempt(o, r, now);
    var d := r.window - (now - e.start);
    assert d > 0;
    assert CeilSeconds(d) * SECOND >= d > (CeilSeconds(d) - 1) * SECOND;
  }

  /** With no attempts allowed at all, none ever is. */
  lemma ZeroLimitNeverAdmits(o: Option<Entry>, r: Rule, now: int)
    requires o.Some? ==> o.value.count >= 0
    ensures r.limit <= 0 ==> !Attempt(o, r, now).1.allowed
  {
  }

  // ---------------------------------------------------------------- the limiter object

  class LoginEntry {
    var count: int
    var start: int

    function Value(): Entry
      reads this
    {
      Entry(count, start)
    }

    constructor (start: int)
      ensures Value() == Entry(0, start)
    {
      this.count, this.start := 0, start;
    }
  }

  class LoginRateLimiter {
    var entries: map<string, LoginEntry>
    ghost var cells: set<LoginEntry>  // every entry of the table
    const rule: Rule

    ghost predicate Valid()
      reads this, cells
    {
      && (forall ip :: ip in entries ==> entries[ip] in cells)
      && (forall a, b :: a in entries && b in entries && a != b ==> entries[a] != entries[b])
    }

    ghost function Contents(): Table
      requires Valid()
      reads this, cells
    {
      map ip | ip in entries :: entries[ip].Value()
    }

    constructor (limit: int, window: int)
      ensures Valid() && Contents() == map[] && cells == {} && rule == Rule(limit, window)
    {
      entries, cells, rule := map[], {}, Rule(limit, window);
    }

    method LoadOrStore(ip: string, now: int) returns (entry: LoginEntry)
      requires Valid()
      modifies this
      ensures Valid() && fresh(cells - old(cells)) && cells >= old(cells)
      ensures ip in entries && entry == entries[ip]
      ensures Contents() == if ip in old(Contents()) then old(Contents()) else old(Contents())[ip := Entry(0, now)]
    {
      if ip in entries {
        entry := entries[ip];
      } else {
        entry := new LoginEntry(now);
        entries := entries[ip := entry];
        cells := cells + {entry};
      }
    }

    /** The part of an attempt done under the entry's own lock. */
    method Decide(entry: LoginEntry, now: int) returns (allowed: bool, retryAfter: int)
      modifies entry
      ensures (entry.Value(), Answer(allowed, retryAfter)) == Attempt(Some(old(entry.Value())), rule, now)
    {
      if now - entry.start >= rule.window {
        entry.count := 0;
        entry.start := now;
      }
      if entry.count >= rule.limit {
        var remaining := rule.window - (now - entry.start);
        retryAfter := CeilSeconds(remaining);
        if retryAfter < 1 {
          retryAfter := 1;
        }
        return false, retryAfter;
      }
      entry.count := entry.count + 1;
      return true, 0;
    }

    /** Deciding on the entry of an address changes the table at that address only. */
    method DecideFor(ip: string, entry: LoginEntry, now: int) returns (allowed: bool, retryAfter: int)
      requires Valid() && ip in entries && entry == entries[ip]
      modifies entry
      ensures Valid()
      ensures (Contents(), Answer(allowed, retryAfter)) ==
              (old(Contents())[ip := Attempt(Some(old(Contents())[ip]), rule, now).0],
               Attempt(Some(old(Contents())[ip]), rule, now).1)
    {
      ghost var loaded := Contents();
      allowed, retryAfter := Decide(entry, now);
      assert forall k :: k in entries && k != ip ==> entries[k].Value() == loaded[k];
      assert Contents() == loaded[ip := entry.Value()];
    }

    method Allow(ip: string, now: int) returns (allowed: bool, retryAfter: int)
      requires Valid()
      modifies this, cells
      ensures Valid() && fresh(cells - old(cells))
      ensures Contents() == Next(old(Contents()), rule, Try(ip, now))
      ensures Answer(allowed, retryAfter) == Attempt(Lookup(old(Contents()), ip), rule, now).1
    {
      var entry := LoadOrStore(ip, now);
      allowed, retryAfter := DecideFor(ip, entry, now);
    }

    method Cleanup(now: int)
      requires Valid()
      modifies this`entries
      ensures Valid()
      ensures Contents() == Next(old(Contents()), rule, Sweep(now))
    {
      var todo := entries.Keys;
      while todo != {}
        invariant Valid() && entries.Keys <= old(entries).Keys && todo <= entries.Keys
        invariant forall k :: k in entries ==> entries[k] == old(entries)[k]
        invariant forall k :: k in old(entries) && k !in todo ==>
                    (k in entries <==> !Expired(old(entries)[k].Value(), rule, now))
        decreases todo
      {
        var k :| k in todo;
        var entry := entries[k];
        if now - entry.start >= rule.window {
          entries := entries - {k};
        }
        todo := todo - {k};
      }
    }
  }
}
