/** The authentication rate limiter (src/rate_limiter.rs): a fixed counting
    window per key, and a lockout once a window has seen too many failures. Times
    are monotone integers. */
module RateLimiter {
  import opened Common

  datatype Policy = Policy(maxAttempts: nat, window: nat, lockout: nat)

  datatype Entry = Entry(count: nat, windowStart: int, lockoutStart: Option<int>)

  type Entries = map<string, Entry>

  function Lookup(m: Entries, key: string): Option<Entry> {
    if key in m then Some(m[key]) else None
  }

  // --------------------------------------------------------------- one entry

  predicate LockedOut(p: Policy, e: Entry, now: int) {
    e.lockoutStart.Some? && now - e.lockoutStart.value < p.lockout
  }

  /** is_limited. */
  predicate Limited(p: Policy, e: Option<Entry>, now: int) {
    e.Some? && LockedOut(p, e.value, now)
  }

  /** A failure in a lockout is refused without being counted. */
  predicate CountsFailure(p: Policy, e: Option<Entry>, now: int) {
    !Limited(p, e, now)
  }

  /** The entry a counted failure starts from: fresh, or the running window. */
  function Opened(p: Policy, e: Option<Entry>, now: int): Entry {
    if e.None? || e.value.lockoutStart.Some? || now - e.value.windowStart >= p.window then Entry(0, now, None)
    else e.value
  }

  /** record_failure: the new entry. It locks out when the count is reached. */
  function Failed(p: Policy, e: Option<Entry>, now: int): Entry {
    if e.Some? && LockedOut(p, e.value, now) then e.value
    else
      var open := Opened(p, e, now);
      var count := open.count + 1;
      Entry(count, open.windowStart, if count >= p.maxAttempts then Some(now) else None)
  }

  /** should_keep_entry. */
  predicate Kept(p: Policy, e: Entry, now: int) {
    LockedOut(p, e, now) || now - e.windowStart < p.window
  }

  // -------------------------------------------------------------------- runs

  datatype Event =
    | Failure(key: string, at: int)
    | Query(key: string, at: int)
    | Success(key: string)
    | Cleanup(at: int)

  function After(p: Policy, m: Entries, ev: Event): Entries {
    match ev
    case Failure(key, at) => m[key := Failed(p, Lookup(m, key), at)]
    case Query(_, _) => m
    case Success(key) => m - {key}
    case Cleanup(at) => map key | key in m && Kept(p, m[key], at) :: m[key]
  }

  /** What a caller sees: the answer of is_limited and of record_failure. */
  function Answer(p: Policy, m: Entries, ev: Event): seq<bool> {
    match ev
    case Failure(key, at) =>
      var e := Failed(p, Lookup(m, key), at);
      [e.lockoutStart.Some?]
    case Query(key, at) => [Limited(p, Lookup(m, key), at)]
    case _ => []
  }

  ghost function Answers(p: Policy, m: Entries, events: seq<Event>): seq<bool>
    decreases |events|
  {
    if events == [] then [] else Answer(p, m, events[0]) + Answers(p, After(p, m, events[0]), events[1..])
  }

  /** The times of the failures of `key` that were counted. */
  ghost function Counted(p: Policy, m: Entries, events: seq<Event>, key: string): seq<int>
    decreases |events|
  {
    if events == [] then []
    else
      var ev := events[0];
      var rest := Counted(p, After(p, m, ev), events[1..], key);
      if ev.Failure? && ev.key == key && CountsFailure(p, Lookup(m, key), ev.at) then [ev.at] + rest else rest
  }

  function TimeOf(ev: Event, now: int): int {
    match ev
    case Failure(_, at) => at
    case Query(_, at) => at
    case Success(_) => now
    case Cleanup(at) => at
  }

  /** The clock never goes back. */
  ghost predicate InOrder(events: seq<Event>, now: int) {
    events == [] || (TimeOf(events[0], now) >= now && InOrder(events[1..], TimeOf(events[0], now)))
  }

  function WithoutCleanups(events: seq<Event>): seq<Event> {
    if events == [] then []
    else if events[0].Cleanup? then WithoutCleanups(events[1..])
    else [events[0]] + WithoutCleanups(events[1..])
  }

  // ------------------------------------------------------ cleanup is invisible

  /** An entry cleaned up, or still there: nobody can tell. */
  ghost predicate SameEntry(p: Policy, e: Option<Entry>, f: Option<Entry>, now: int) {
    e == f || (e.None? && f.Some? && !Kept(p, f.value, now))
  }

  ghost predicate Similar(p: Policy, m: Entries, n: Entries, now: int) {
    forall key :: SameEntry(p, Lookup(m, key), Lookup(n, key), now)
  }

  lemma SameEntryLater(p: Policy, e: Option<Entry>, f: Option<Entry>, now: int, later: int)
    requires SameEntry(p, e, f, now) && now <= later
    ensures SameEntry(p, e, f, later)
    ensures Limited(p, e, later) == Limited(p, f, later)
    ensures Failed(p, e, later) == Failed(p, f, later)
  {
  }

  lemma SimilarStep(p: Policy, m: Entries, n: Entries, ev: Event, now: int)
    requires Similar(p, m, n, now) && TimeOf(ev, now) >= now
    ensures !ev.Cleanup? ==> Similar(p, After(p, m, ev), After(p, n, ev), TimeOf(ev, now))
    ensures ev.Cleanup? ==> Similar(p, After(p, m, ev), n, ev.at)
    ensures !ev.Cleanup? ==> Answer(p, m, ev) == Answer(p, n, ev)
    ensures ev.Failure? ==> CountsFailure(p, Lookup(m, ev.key), ev.at) == CountsFailure(p, Lookup(n, ev.key), ev.at)
  {
    hide Failed, Kept, LockedOut;
    var m', n', later := After(p, m, ev), if ev.Cleanup? then n else After(p, n, ev), TimeOf(ev, now);
    forall key
      ensures SameEntry(p, Lookup(m', key), Lookup(n', key), later)
    {
      SameEntryLater(p, Lookup(m, key), Lookup(n, key), now, later);
    }
    if ev.Failure? || ev.Query? {
      SameEntryLater(p, Lookup(m, ev.key), Lookup(n, ev.key), now, later);
    }
  }

  /** Running cleanups at any times changes no later answer, and no failure is
      counted that would not have been, for any key. */
  lemma {:induction false} CleanupIsInvisible(p: Policy, m: Entries, n: Entries, events: seq<Event>, now: int, key: string)
    requires Similar(p, m, n, now) && InOrder(events, now)
    ensures Answers(p, m, events) == Answers(p, n, WithoutCleanups(events))
    ensures Counted(p, m, events, key) == Counted(p, n, WithoutCleanups(events), key)
    decreases |events|
  {
    hide After, Answer, Similar, CountsFailure;
    if events != [] {
      var ev := events[0];
      SimilarStep(p, m, n, ev, now);
      if ev.Cleanup? {
        NoAnswer(p, m, ev);
        CleanupIsInvisible(p, After(p, m, ev), n, events[1..], ev.at, key);
      } else {
        CleanupIsInvisible(p, After(p, m, ev), After(p, n, ev), events[1..], TimeOf(ev, now), key);
        var all := WithoutCleanups(events);
        assert all[0] == ev && all[1..] == WithoutCleanups(events[1..]);
      }
    }
  }

  lemma NoAnswer(p: Policy, m: Entries, ev: Event)
    requires ev.Cleanup?
    ensures Answer(p, m, ev) == []
  {
  }

  // ------------------------------------------------------ how many get through

  function InWindow(times: seq<int>, t: int, length: nat): nat {
    if times == [] then 0
    else (if t <= times[0] < t + length then 1 else 0) + InWindow(times[1..], t, length)
  }

  /** The most failures any window-long stretch can let through. */
  function Bound(p: Policy): nat {
    if p.maxAttempts <= 1 then 1 else 2 * p.maxAttempts - 2
  }

  /** What the previous windows may add to the current one. */
  function Leftover(p: Policy): nat {
    if p.maxAttempts <= 2 then 0 else p.maxAttempts - 2
  }

  ghost function Later(times: seq<int>, x: int): nat {
    if times == [] then 0 else (if times[0] > x then 1 else 0) + Later(times[1..], x)
  }

  lemma {:induction false} LaterConcat(a: seq<int>, b: seq<int>, x: int)
    ensures Later(a + b, x) == Later(a, x) + Later(b, x)
  {
    if a == [] {
      assert a + b == b;
    } else {
      LaterConcat(a[1..], b, x);
      assert (a + b)[1..] == a[1..] + b;
    }
  }

  lemma {:induction false} WindowConcat(a: seq<int>, b: seq<int>, t: int, w: nat)
    ensures InWindow(a + b, t, w) == InWindow(a, t, w) + InWindow(b, t, w)
  {
    if a == [] {
      assert a + b == b;
    } else {
      WindowConcat(a[1..], b, t, w);
      assert (a + b)[1..] == a[1..] + b;
    }
  }

  lemma {:induction false} LaterBounds(times: seq<int>, x: int, y: int, t: int, w: nat)
    ensures Later(times, x) <= |times|
    ensures x <= y ==> Later(times, y) <= Later(times, x)
    ensures (forall i :: 0 <= i < |times| ==> times[i] <= x) ==> Later(times, x) == 0
    ensures times != [] && times[0] <= x ==> Later(times, x) < |times|
    ensures InWindow(times, t, w) <= Later(times, t - 1)
  {
    if times != [] {
      LaterBounds(times[1..], x, y, t, w);
    }
  }

  /** `past` are the failures counted in earlier windows, `current` those of the
      running one. */
  ghost predicate EpochInv(p: Policy, e: Option<Entry>, past: seq<int>, current: seq<int>, now: int) {
    if e.None? then past == [] && current == []
    else
      var entry := e.value;
      && |current| == entry.count && 1 <= entry.count <= Max(p.maxAttempts, 1)
      && current[0] == entry.windowStart
      && (forall i :: 0 <= i < |current| ==> entry.windowStart <= current[i] <= now)
      && (forall i :: 0 <= i < |past| ==> past[i] <= entry.windowStart)
      && (entry.lockoutStart.None? ==> entry.count < p.maxAttempts)
      && (entry.lockoutStart.Some? ==>
            entry.lockoutStart.value <= now && forall i :: 0 <= i < |current| ==> current[i] <= entry.lockoutStart.value)
      && Later(past, entry.windowStart - p.window) <= Leftover(p)
  }

  ghost predicate WithinBound(p: Policy, times: seq<int>) {
    forall t :: InWindow(times, t, p.window) <= Bound(p)
  }

  /** A failure that opens a new window. */
  lemma NewEpoch(p: Policy, e: Option<Entry>, past: seq<int>, current: seq<int>, now: int, at: int)
    requires p.lockout >= p.window && EpochInv(p, e, past, current, now) && now <= at
    requires CountsFailure(p, e, at) && Opened(p, e, at) == Entry(0, at, None)
    requires e.None? || e.value.lockoutStart.Some? || at - e.value.windowStart >= p.window
    ensures EpochInv(p, Some(Failed(p, e, at)), past + current, [at], at)
  {
    LaterConcat(past, current, at - p.window);
    if e.Some? {
      LaterBounds(past, at - p.window, at - p.window, 0, 0);
      LaterBounds(current, at - p.window, at - p.window, 0, 0);
    }
  }

  /** A failure in the running window. */
  lemma SameEpoch(p: Policy, e: Option<Entry>, past: seq<int>, current: seq<int>, now: int, at: int)
    requires EpochInv(p, e, past, current, now) && now <= at
    requires e.Some? && e.value.lockoutStart.None? && at - e.value.windowStart < p.window
    ensures EpochInv(p, Some(Failed(p, e, at)), past, current + [at], at)
  {
  }

  /** The running window and what is left over never exceed the bound. */
  lemma EpochWithinBound(p: Policy, e: Option<Entry>, past: seq<int>, current: seq<int>, at: int, t: int)
    requires EpochInv(p, e, past, current, at) && e.Some? && current[|current| - 1] == at
    requires t <= at < t + p.window
    ensures InWindow(past + current, t, p.window) <= Bound(p)
  {
    var ws := e.value.windowStart;
    LaterBounds(past + current, 0, 0, t, p.window);
    LaterConcat(past, current, t - 1);
    LaterBounds(current, t - 1, t - 1, 0, 0);
    if t <= ws {
      LaterBounds(past, ws - p.window, t - 1, 0, 0);
    } else {
      LaterBounds(past, t - 1, t - 1, 0, 0);
    }
  }

  lemma FailureStaysWithinBound(p: Policy, e: Option<Entry>, past: seq<int>, current: seq<int>, now: int, at: int)
    returns (past': seq<int>, current': seq<int>)
    requires p.lockout >= p.window && EpochInv(p, e, past, current, now) && now <= at
    requires WithinBound(p, past + current) && CountsFailure(p, e, at)
    ensures EpochInv(p, Some(Failed(p, e, at)), past', current', at)
    ensures past' + current' == past + current + [at] && WithinBound(p, past' + current')
  {
    if e.Some? && e.value.lockoutStart.None? && at - e.value.windowStart < p.window {
      past', current' := past, current + [at];
      SameEpoch(p, e, past, current, now, at);
    } else {
      past', current' := past + current, [at];
      NewEpoch(p, e, past, current, now, at);
    }
    forall t
      ensures InWindow(past' + current', t, p.window) <= Bound(p)
    {
      if t <= at < t + p.window {
        EpochWithinBound(p, Some(Failed(p, e, at)), past', current', at, t);
      } else {
        WindowConcat(past + current, [at], t, p.window);
        assert past' + current' == past + current + [at];
      }
    }
  }

  ghost predicate NoSuccess(events: seq<Event>, key: string) {
    forall i :: 0 <= i < |events| ==> events[i] != Success(key)
  }

  lemma {:induction false} RunStaysWithinBound(p: Policy, m: Entries, events: seq<Event>, now: int, key: string,
                                               past: seq<int>, current: seq<int>)
    requires p.lockout >= p.window && InOrder(events, now) && NoSuccess(events, key)
    requires forall i :: 0 <= i < |events| ==> !events[i].Cleanup?
    requires EpochInv(p, Lookup(m, key), past, current, now) && WithinBound(p, past + current)
    ensures WithinBound(p, past + current + Counted(p, m, events, key))
    decreases |events|
  {
    hide EpochInv, WithinBound, Failed;
    var all := past + current;
    if events == [] {
      assert all + [] == all;
    } else {
      var ev, m' := events[0], After(p, m, events[0]);
      var now' := TimeOf(ev, now);
      assert ev in events;
      if ev.Failure? && ev.key == key && CountsFailure(p, Lookup(m, key), ev.at) {
        var past', current' := FailureStaysWithinBound(p, Lookup(m, key), past, current, now, ev.at);
        RunStaysWithinBound(p, m', events[1..], now', key, past', current');
        var rest := Counted(p, m', events[1..], key);
        assert all + ([ev.at] + rest) == past' + current' + rest;
      } else {
        UncountedKeeps(p, m, ev, now, key, past, current);
        RunStaysWithinBound(p, m', events[1..], now', key, past, current);
      }
    }
  }

  lemma UncountedKeeps(p: Policy, m: Entries, ev: Event, now: int, key: string, past: seq<int>, current: seq<int>)
    requires EpochInv(p, Lookup(m, key), past, current, now) && TimeOf(ev, now) >= now
    requires ev != Success(key) && !ev.Cleanup?
    requires ev.Failure? && ev.key == key ==> !CountsFailure(p, Lookup(m, key), ev.at)
    ensures EpochInv(p, Lookup(After(p, m, ev), key), past, current, TimeOf(ev, now))
  {
  }

  lemma {:induction false} NoCleanupsLeft(events: seq<Event>, now: int, key: string)
    requires InOrder(events, now)
    ensures forall i :: 0 <= i < |WithoutCleanups(events)| ==> !WithoutCleanups(events)[i].Cleanup?
    ensures InOrder(WithoutCleanups(events), now)
    ensures NoSuccess(events, key) ==> NoSuccess(WithoutCleanups(events), key)
    decreases |events|
  {
    if events != [] {
      var ev := events[0];
      NoCleanupsLeft(events[1..], TimeOf(ev, now), key);
      var rest := WithoutCleanups(events[1..]);
      if ev.Cleanup? {
        InOrderEarlier(rest, ev.at, now);
      } else {
        assert ([ev] + rest)[1..] == rest;
      }
    }
  }

  lemma {:induction false} InOrderEarlier(events: seq<Event>, now: int, earlier: int)
    requires InOrder(events, now) && earlier <= now
    ensures InOrder(events, earlier)
    decreases |events|
  {
    if events != [] && events[0].Success? {
      InOrderEarlier(events[1..], now, earlier);
    }
  }

  /** Given lockout >= window, a key whose attempts never succeed gets no more
      than `Bound` counted failures into any window-long stretch, with cleanups
      anywhere. */
  lemma FailuresAreBounded(p: Policy, events: seq<Event>, now: int, key: string, t: int)
    requires p.lockout >= p.window && InOrder(events, now) && NoSuccess(events, key)
    ensures InWindow(Counted(p, map[], events, key), t, p.window) <= Bound(p) <= Max(1, 2 * p.maxAttempts - 1)
  {
    var plain := WithoutCleanups(events);
    NoCleanupsLeft(events, now, key);
    CleanupIsInvisible(p, map[], map[], events, now, key);
    assert EpochInv(p, Lookup(map[], key), [], [], now) && WithinBound(p, []);
    assert [] + [] + Counted(p, map[], plain, key) == Counted(p, map[], plain, key);
    RunStaysWithinBound(p, map[], plain, now, key, [], []);
  }

  // -------------------------------------------------------- exactly when, and tight

  ghost function Burst(key: string, at: int, n: nat): seq<Event> {
    seq(n, _ => Failure(key, at))
  }

  ghost function Times(at: int, n: nat): seq<int> {
    seq(n, _ => at)
  }

  /** Failures at one instant are all counted until the count is reached. */
  lemma {:induction false} BurstCounts(p: Policy, m: Entries, key: string, at: int, n: nat, k: nat, ws: int, tail: seq<Event>)
    returns (m': Entries)
    requires CountsFailure(p, Lookup(m, key), at) && Opened(p, Lookup(m, key), at) == Entry(k, ws, None)
    requires at - ws < p.window && 1 <= n && k + n <= Max(p.maxAttempts, 1)
    ensures Counted(p, m, Burst(key, at, n) + tail, key) == Times(at, n) + Counted(p, m', tail, key)
    ensures Lookup(m', key) == Some(Entry(k + n, ws, if k + n >= p.maxAttempts then Some(at) else None))
    decreases n
  {
    hide Counted, CountsFailure, Opened;
    var rest := Burst(key, at, n - 1) + tail;
    assert Burst(key, at, n) + tail == [Failure(key, at)] + rest;
    var m1 := OneMoreCounts(p, m, key, at, k, ws, rest);
    if n == 1 {
      m' := m1;
      assert rest == tail;
    } else {
      m' := BurstCounts(p, m1, key, at, n - 1, k + 1, ws, tail);
    }
    assert Times(at, n) == [at] + Times(at, n - 1);
  }

  lemma OneMoreCounts(p: Policy, m: Entries, key: string, at: int, k: nat, ws: int, rest: seq<Event>) returns (m': Entries)
    requires CountsFailure(p, Lookup(m, key), at) && Opened(p, Lookup(m, key), at) == Entry(k, ws, None)
    requires at - ws < p.window && k + 1 <= Max(p.maxAttempts, 1)
    ensures Counted(p, m, [Failure(key, at)] + rest, key) == [at] + Counted(p, m', rest, key)
    ensures Lookup(m', key) == Some(Entry(k + 1, ws, if k + 1 >= p.maxAttempts then Some(at) else None))
    ensures k + 1 < p.maxAttempts ==>
              CountsFailure(p, Lookup(m', key), at) && Opened(p, Lookup(m', key), at) == Entry(k + 1, ws, None)
  {
    var events := [Failure(key, at)] + rest;
    m' := After(p, m, events[0]);
    assert events[1..] == rest;
  }

  lemma {:induction false} TimesInWindow(at: int, n: nat, t: int, w: nat)
    ensures InWindow(Times(at, n), t, w) == if t <= at < t + w then n else 0
    decreases n
  {
    if n > 0 {
      TimesInWindow(at, n - 1, t, w);
      assert Times(at, n)[1..] == Times(at, n - 1);
    }
  }

  lemma {:induction false} BurstInOrder(key: string, at: int, n: nat, now: int, tail: seq<Event>)
    requires now <= at && InOrder(tail, at)
    ensures InOrder(Burst(key, at, n) + tail, now)
    decreases n
  {
    var events := Burst(key, at, n) + tail;
    if n == 0 {
      assert events == tail;
      InOrderEarlier(tail, at, now);
    } else {
      assert events[1..] == Burst(key, at, n - 1) + tail;
      BurstInOrder(key, at, n - 1, at, tail);
    }
  }

  ghost predicate AlwaysBounded(p: Policy, bound: nat) {
    forall events, now, key, t :: InOrder(events, now) && NoSuccess(events, key) ==>
      InWindow(Counted(p, map[], events, key), t, p.window) <= bound
  }

  /** With a lockout shorter than the window, two full bursts fit into one window. */
  lemma ShortLockoutBreaksBound(p: Policy) returns (events: seq<Event>)
    requires p.lockout < p.window
    ensures InOrder(events, 0) && NoSuccess(events, "k")
    ensures InWindow(Counted(p, map[], events, "k"), 0, p.window) == 2 * Max(p.maxAttempts, 1)
  {
    var n := Max(p.maxAttempts, 1);
    var second := Burst("k", p.lockout, n) + [];
    events := Burst("k", 0, n) + second;
    BurstInOrder("k", p.lockout, n, 0, []);
    BurstInOrder("k", p.lockout, n, p.lockout, []);
    BurstInOrder("k", 0, n, 0, second);
    var m1 := BurstCounts(p, map[], "k", 0, n, 0, 0, second);
    var m2 := BurstCounts(p, m1, "k", p.lockout, n, 0, p.lockout, []);
    assert Counted(p, m2, [], "k") == [];
    var a, b := Times(0, n), Times(p.lockout, n);
    assert Counted(p, map[], events, "k") == a + (b + []);
    assert b + [] == b;
    WindowConcat(a, b, 0, p.window);
    TimesInWindow(0, n, 0, p.window);
    TimesInWindow(p.lockout, n, 0, p.window);
  }

  /** The bound holds of every run exactly when the lockout covers the window. */
  lemma BoundedExactlyWhenLockoutCoversWindow(p: Policy)
    ensures AlwaysBounded(p, Bound(p)) <==> p.lockout >= p.window
    ensures p.maxAttempts >= 1 ==> (AlwaysBounded(p, 2 * p.maxAttempts - 1) <==> p.lockout >= p.window)
  {
    if p.lockout >= p.window {
      forall events, now, key, t | InOrder(events, now) && NoSuccess(events, key)
        ensures InWindow(Counted(p, map[], events, key), t, p.window) <= Bound(p) <= Max(1, 2 * p.maxAttempts - 1)
      {
        FailuresAreBounded(p, events, now, key, t);
      }
    } else {
      var events := ShortLockoutBreaksBound(p);
      assert InOrder(events, 0) && NoSuccess(events, "k");
      assert InWindow(Counted(p, map[], events, "k"), 0, p.window) > Bound(p);
    }
  }

  lemma SmallBoundIsReached(p: Policy) returns (events: seq<Event>, t: int)
    requires p.window >= 2 && p.maxAttempts <= 2
    ensures InOrder(events, 0) && NoSuccess(events, "k")
    ensures InWindow(Counted(p, map[], events, "k"), t, p.window) == Bound(p)
  {
    var n := Max(p.maxAttempts, 1);
    events, t := Burst("k", 0, n) + [], 0;
    BurstInOrder("k", 0, n, 0, []);
    var m1 := BurstCounts(p, map[], "k", 0, n, 0, 0, []);
    assert Counted(p, m1, [], "k") == [];
    assert Times(0, n) + [] == Times(0, n);
    TimesInWindow(0, n, t, p.window);
  }

  /** No smaller bound holds: some run reaches it. */
  lemma BoundIsReached(p: Policy) returns (events: seq<Event>, t: int)
    requires p.window >= 2
    ensures InOrder(events, 0) && NoSuccess(events, "k")
    ensures InWindow(Counted(p, map[], events, "k"), t, p.window) == Bound(p)
  {
    if p.maxAttempts <= 2 {
      events, t := SmallBoundIsReached(p);
    } else {
      events, t := LargeBoundIsReached(p);
    }
  }

  /** One failure, then late in its window all but one of those it leaves, and
      once the window is over a full set. */
  ghost function Bursts(p: Policy): seq<Event>
    requires p.window >= 2 && p.maxAttempts >= 3
  {
    Burst("k", 0, 1) + LateBursts(p)
  }

  ghost function LateBursts(p: Policy): seq<Event>
    requires p.window >= 2 && p.maxAttempts >= 3
  {
    Burst("k", p.window - 1, p.maxAttempts - 2) + (Burst("k", p.window, p.maxAttempts) + [])
  }

  lemma BurstsInOrder(p: Policy)
    requires p.window >= 2 && p.maxAttempts >= 3
    ensures InOrder(Bursts(p), 0) && NoSuccess(Bursts(p), "k")
  {
    hide InOrder;
    var w, n := p.window, p.maxAttempts;
    assert InOrder([], w) by { NothingInOrder(w); }
    BurstInOrder("k", w, n, w - 1, []);
    BurstInOrder("k", w - 1, n - 2, 0, Burst("k", w, n) + []);
    BurstInOrder("k", 0, 1, 0, LateBursts(p));
  }

  lemma LateBurstsCount(p: Policy, m1: Entries)
    requires p.window >= 2 && p.maxAttempts >= 3 && "k" in m1 && m1["k"] == Entry(1, 0, None)
    ensures Counted(p, m1, LateBursts(p), "k") == Times(p.window - 1, p.maxAttempts - 2) + Times(p.window, p.maxAttempts)
  {
    hide Counted, Burst, Times;
    var w, n := p.window, p.maxAttempts;
    var third := Burst("k", w, n) + [];
    var m2 := BurstCounts(p, m1, "k", w - 1, n - 2, 1, 0, third);
    var m3 := BurstCounts(p, m2, "k", w, n, 0, w, []);
    assert Counted(p, m3, [], "k") == [] by { NothingCounted(p, m3); }
    assert Times(w, n) + [] == Times(w, n);
  }

  lemma NothingInOrder(now: int)
    ensures InOrder([], now)
  {
  }

  lemma NothingCounted(p: Policy, m: Entries)
    ensures Counted(p, m, [], "k") == []
  {
  }

  lemma LargeBoundIsReached(p: Policy) returns (events: seq<Event>, t: int)
    requires p.window >= 2 && p.maxAttempts >= 3
    ensures InOrder(events, 0) && NoSuccess(events, "k")
    ensures InWindow(Counted(p, map[], events, "k"), t, p.window) == Bound(p)
  {
    hide InOrder, NoSuccess, Burst, Counted, InWindow, Times, LateBursts;
    var w, n := p.window, p.maxAttempts;
    events, t := Bursts(p), w - 1;
    BurstsInOrder(p);
    var m1 := BurstCounts(p, map[], "k", 0, 1, 0, 0, LateBursts(p));
    LateBurstsCount(p, m1);
    var a, b, c := Times(0, 1), Times(w - 1, n - 2), Times(w, n);
    WindowConcat(a, b + c, t, w);
    WindowConcat(b, c, t, w);
    TimesInWindow(0, 1, t, w);
    TimesInWindow(w - 1, n - 2, t, w);
    TimesInWindow(w, n, t, w);
  }

  // --------------------------------------------------------------- what callers see

  /** A failure is answered as a query right after it would be. */
  lemma AnswersAgree(p: Policy, m: Entries, key: string, at: int)
    requires p.lockout > 0
    ensures Answer(p, m, Failure(key, at)) == Answer(p, After(p, m, Failure(key, at)), Query(key, at))
  {
  }

  /** As many failures at one instant as are allowed lock the key out, and exactly
      for the lockout; one fewer does not. */
  lemma {:induction false} LockoutLastsExactly(p: Policy, m: Entries, key: string, at: int, n: nat, later: int)
    requires Lookup(m, key).None? && p.window > 0 && 1 <= n <= Max(p.maxAttempts, 1) && later >= at
    ensures var m' := AfterAll(p, m, Burst(key, at, n));
            Answer(p, m', Query(key, later)) == [n >= p.maxAttempts && later - at < p.lockout]
  {
    AfterBurst(p, m, key, at, n);
  }

  ghost function AfterAll(p: Policy, m: Entries, events: seq<Event>): Entries
    decreases |events|
  {
    if events == [] then m else AfterAll(p, After(p, m, events[0]), events[1..])
  }

  lemma {:induction false} AfterBurst(p: Policy, m: Entries, key: string, at: int, n: nat)
    requires Lookup(m, key).None? && p.window > 0 && 1 <= n <= Max(p.maxAttempts, 1)
    ensures Lookup(AfterAll(p, m, Burst(key, at, n)), key)
            == Some(Entry(n, at, if n >= p.maxAttempts then Some(at) else None))
    decreases n
  {
    if n == 1 {
      assert Burst(key, at, 1)[1..] == [];
    } else {
      AfterBurst(p, m, key, at, n - 1);
      var some := Burst(key, at, n - 1);
      assert Burst(key, at, n) == some + [Failure(key, at)];
      AfterOneMore(p, m, some, Failure(key, at));
    }
  }

  lemma {:induction false} AfterOneMore(p: Policy, m: Entries, events: seq<Event>, ev: Event)
    ensures AfterAll(p, m, events + [ev]) == After(p, AfterAll(p, m, events), ev)
    decreases |events|
  {
    var all := events + [ev];
    if events == [] {
      assert all[1..] == [];
    } else {
      assert all[0] == events[0] && all[1..] == events[1..] + [ev];
      AfterOneMore(p, After(p, m, events[0]), events[1..], ev);
    }
  }

  /** After a success the key has its full count again, whatever it had before; no
      other key notices. */
  lemma SuccessForgives(p: Policy, m: Entries, key: string, at: int, n: nat, later: int, other: string)
    requires p.window > 0 && 1 <= n <= Max(p.maxAttempts, 1) && later >= at
    ensures var m1 := After(p, m, Success(key));
            && Answer(p, m1, Query(key, at)) == [false]
            && Answer(p, AfterAll(p, m1, Burst(key, at, n)), Query(key, later)) == [n >= p.maxAttempts && later - at < p.lockout]
            && (other != key ==> Lookup(m1, other) == Lookup(m, other))
  {
    LockoutLastsExactly(p, After(p, m, Success(key)), key, at, n, later);
  }

  // ------------------------------------------------------------------ the limiter

  /** The limiter as the object it is: one table by address, one by account. */
  class RateLimiter {
    const policy: Policy
    const accountPolicy: Policy
    var entries: Entries
    var accounts: Entries

    constructor (policy: Policy, accountPolicy: Policy)
      ensures this.policy == policy && this.accountPolicy == accountPolicy && entries == map[] && accounts == map[]
    {
      this.policy, this.accountPolicy, entries, accounts := policy, accountPolicy, map[], map[];
    }

    method IsLimited(ip: string, now: int) returns (limited: bool)
      ensures [limited] == Answer(policy, entries, Query(ip, now))
    {
      if ip !in entries {
        return false;
      }
      match entries[ip].lockoutStart {
        case Some(start) =>
          if now - start < policy.lockout {
            return true;
          }
        case None =>
      }
      limited := false;
    }

    /** The body of record_failure, for either table. */
    static method Record(p: Policy, found: Option<Entry>, now: int) returns (entry: Entry, limited: bool)
      ensures entry == Failed(p, found, now) && limited == entry.lockoutStart.Some?
    {
      entry := if found.Some? then found.value else Entry(0, now, None);
      if entry.lockoutStart.Some? {
        if now - entry.lockoutStart.value >= p.lockout {
          entry := Entry(0, now, None);
        } else {
          return entry, true;
        }
      }
      if now - entry.windowStart >= p.window {
        entry := entry.(count := 0, windowStart := now);
      }
      entry := entry.(count := entry.count + 1);
      if entry.count >= p.maxAttempts {
        entry := entry.(lockoutStart := Some(now));
        limited := true;
      } else {
        limited := false;
      }
    }

    method RecordFailure(ip: string, now: int) returns (limited: bool)
      modifies this`entries
      ensures entries == After(policy, old(entries), Failure(ip, now))
      ensures [limited] == Answer(policy, old(entries), Failure(ip, now))
    {
      var entry;
      entry, limited := Record(policy, Lookup(entries, ip), now);
      entries := entries[ip := entry];
    }

    method RecordSuccess(ip: string)
      modifies this`entries
      ensures entries == After(policy, old(entries), Success(ip))
    {
      entries := entries - {ip};
    }

    /** The account twins ignore an empty subject. */
    method IsLimitedAccount(subject: string, now: int) returns (limited: bool)
      ensures subject == "" ==> !limited
      ensures subject != "" ==> [limited] == Answer(accountPolicy, accounts, Query(subject, now))
    {
      if subject == "" || subject !in accounts {
        return false;
      }
      var start := accounts[subject].lockoutStart;
      limited := start.Some? && now - start.value < accountPolicy.lockout;
    }

    method RecordFailureAccount(subject: string, now: int) returns (limited: bool)
      modifies this`accounts
      ensures subject == "" ==> !limited && accounts == old(accounts)
      ensures subject != "" ==>
        && accounts == After(accountPolicy, old(accounts), Failure(subject, now))
        && [limited] == Answer(accountPolicy, old(accounts), Failure(subject, now))
    {
      if subject == "" {
        return false;
      }
      var entry;
      entry, limited := Record(accountPolicy, Lookup(accounts, subject), now);
      accounts := accounts[subject := entry];
    }

    method RecordSuccessAccount(subject: string)
      modifies this`accounts
      ensures accounts == if subject == "" then old(accounts) else After(accountPolicy, old(accounts), Success(subject))
    {
      if subject != "" {
        accounts := accounts - {subject};
      }
    }

    /** `retain` with should_keep_entry. */
    static method Retain(p: Policy, m: Entries, now: int) returns (r: Entries)
      ensures r == After(p, m, Cleanup(now))
    {
      r := m;
      var todo := m.Keys;
      while todo != {}
        invariant todo <= m.Keys
        invariant forall key :: key in r <==> key in m && (key in todo || Kept(p, m[key], now))
        invariant forall key :: key in r ==> r[key] == m[key]
        decreases todo
      {
        var key :| key in todo;
        var e := m[key];
        var keep := (e.lockoutStart.Some? && now - e.lockoutStart.value < p.lockout) || now - e.windowStart < p.window;
        if !keep {
          r := r - {key};
        }
        todo := todo - {key};
      }
    }

    method CleanupExpired(now: int)
      modifies this
      ensures entries == After(policy, old(entries), Cleanup(now))
      ensures accounts == After(accountPolicy, old(accounts), Cleanup(now))
    {
      entries := Retain(policy, entries, now);
      accounts := Retain(accountPolicy, accounts, now);
    }
  }
}
