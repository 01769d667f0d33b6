/** Whole runs of the rate limiter. */
module RateLimiterRuns {
  import opened Common
  import opened JsCollections
  import opened RateLimiter

  // ---- The cap ----

  function Windowed(m: Windows, limits: RateLimits, qs: seq<Request>): Windows
    decreases qs
  {
    if qs == [] then m else Windowed(Check(m, limits, qs[0]).0, limits, qs[1..])
  }

  function Decisions(m: Windows, limits: RateLimits, qs: seq<Request>): seq<Option<Decision>>
    decreases qs
  {
    if qs == [] then []
    else
      var (m', d) := Check(m, limits, qs[0]);
      [d] + Decisions(m', limits, qs[1..])
  }

  lemma FoundHasRoom(m: Windows, now: int)
    ensures |Found(m, now)| < RATE_LIMIT_MAX_WINDOWS
    ensures DistinctKeys(m) ==> DistinctKeys(Found(m, now))
  {
    if DistinctKeys(m) {
      FilterDistinct(m, (e: Entry<string, RateWindow>) => e.value.resetAt > now);
    }
  }

  /** Whatever the clock does, the map never holds more than its cap. */
  lemma {:induction false} MapStaysWithinCap(m: Windows, limits: RateLimits, qs: seq<Request>)
    requires |m| <= RATE_LIMIT_MAX_WINDOWS
    ensures |Windowed(m, limits, qs)| <= 10_000
    decreases qs
  {
    if qs != [] {
      FoundHasRoom(m, qs[0].now);
      MapStaysWithinCap(Check(m, limits, qs[0]).0, limits, qs[1..]);
    }
  }

  // ---- The unbounded limiter ----

  // A limiter that keeps every window it ever opened.
  type Memory = map<string, RateWindow>

  function Remembered(memory: Memory, key: string): Option<RateWindow> {
    if key in memory then Some(memory[key]) else None
  }

  function CheckUnbounded(memory: Memory, limits: RateLimits, q: Request): (Memory, Option<Decision>) {
    match Counted(limits, q)
    case None => (memory, None)
    case Some((limit, key)) =>
      var (window, decision) := Hit(Remembered(memory, key), q.now, limit);
      (memory[key := window], Some(decision))
  }

  function UnboundedDecisions(memory: Memory, limits: RateLimits, qs: seq<Request>): seq<Option<Decision>>
    decreases qs
  {
    if qs == [] then []
    else
      var (memory', d) := CheckUnbounded(memory, limits, qs[0]);
      [d] + UnboundedDecisions(memory', limits, qs[1..])
  }

  function LiveKeys(memory: Memory, now: int): set<string> {
    set key | key in memory && memory[key].resetAt > now
  }

  // Times never go back, and at each call fewer than the cap are unexpired.
  ghost predicate NeverFull(memory: Memory, limits: RateLimits, qs: seq<Request>, last: int)
    decreases qs
  {
    qs != [] ==>
      && qs[0].now >= last
      && |LiveKeys(memory, qs[0].now)| < RATE_LIMIT_MAX_WINDOWS
      && NeverFull(CheckUnbounded(memory, limits, qs[0]).0, limits, qs[1..], qs[0].now)
  }

  // All that a decision depends on: the window, if it has not elapsed.
  function Live(window: Option<RateWindow>, now: int): Option<RateWindow> {
    if window.Some? && window.value.resetAt > now then window else None
  }

  ghost predicate Agrees(m: Windows, memory: Memory, now: int) {
    DistinctKeys(m) && forall key :: Live(Get(m, key), now) == Live(Remembered(memory, key), now)
  }

  lemma {:induction false} KeySetSize(m: Windows)
    requires DistinctKeys(m)
    ensures |set e | e in m :: e.key| == |m|
  {
    if m != [] {
      KeySetSize(m[1..]);
      var rest := set e | e in m[1..] :: e.key;
      assert m[0].key !in rest;
      assert (set e | e in m :: e.key) == {m[0].key} + rest by {
        forall k | k in (set e | e in m :: e.key) ensures k in {m[0].key} + rest {
          var e :| e in m && e.key == k;
        }
      }
    }
  }

  lemma {:induction false} SubsetSize(a: set<string>, b: set<string>)
    requires a <= b
    ensures |a| <= |b|
  {
    if a != {} {
      var x :| x in a;
      SubsetSize(a - {x}, b - {x});
    }
  }

  // With room to spare a sweep removes elapsed windows only.
  lemma FoundAgrees(m: Windows, memory: Memory, now: int, last: int)
    requires Agrees(m, memory, last) && now >= last && |LiveKeys(memory, now)| < RATE_LIMIT_MAX_WINDOWS
    ensures Agrees(Found(m, now), memory, now)
  {
    var live := (e: Entry<string, RateWindow>) => e.value.resetAt > now;
    var u := Unexpired(m, now);
    FoundHasRoom(m, now);
    forall key ensures Live(Get(m, key), now) == Live(Remembered(memory, key), now) {
      assert Live(Get(m, key), last) == Live(Remembered(memory, key), last);
    }
    if |m| >= RATE_LIMIT_MAX_WINDOWS {
      FilterDistinct(m, live);
      FilterMembers(m, live);
      KeySetSize(u);
      var keys := set e | e in u :: e.key;
      forall e | e in u ensures e.key in LiveKeys(memory, now) {
        var i :| 0 <= i < |m| && m[i] == e;
        GetIn(m, i);
        assert Live(Get(m, e.key), now) == Live(Remembered(memory, e.key), now);
      }
      SubsetSize(keys, LiveKeys(memory, now));
      assert Found(m, now) == u;
      forall key ensures Live(Get(u, key), now) == Live(Remembered(memory, key), now) {
        GetFilter(m, live, key);
      }
    }
  }

  lemma CheckAgrees(m: Windows, memory: Memory, limits: RateLimits, q: Request, last: int)
    requires Agrees(m, memory, last) && q.now >= last && |LiveKeys(memory, q.now)| < RATE_LIMIT_MAX_WINDOWS
    ensures Check(m, limits, q).1 == CheckUnbounded(memory, limits, q).1
    ensures Agrees(Check(m, limits, q).0, CheckUnbounded(memory, limits, q).0, q.now)
  {
    match Counted(limits, q)
    case None =>
      forall key ensures Live(Get(m, key), q.now) == Live(Remembered(memory, key), q.now) {
        assert Live(Get(m, key), last) == Live(Remembered(memory, key), last);
      }
    case Some((limit, key)) =>
      FoundAgrees(m, memory, q.now, last);
      var found := Found(m, q.now);
      assert Live(Get(found, key), q.now) == Live(Remembered(memory, key), q.now);
      var window := Hit(Get(found, key), q.now, limit).0;
      forall k ensures Live(Get(Set(found, key, window), k), q.now) == Live(Remembered(memory[key := window], k), q.now) {
        GetSet(found, key, window, k);
        assert Live(Get(found, k), q.now) == Live(Remembered(memory, k), q.now);
      }
  }

  /** As long as fewer windows than the cap are unexpired at each call, the
      limiter with its sweep decides exactly like the one that never forgets. */
  lemma {:induction false} BoundedRefinesUnbounded(
    m: Windows, memory: Memory, limits: RateLimits, qs: seq<Request>, last: int)
    requires Agrees(m, memory, last) && NeverFull(memory, limits, qs, last)
    ensures Decisions(m, limits, qs) == UnboundedDecisions(memory, limits, qs)
    decreases qs
  {
    if qs != [] {
      CheckAgrees(m, memory, limits, qs[0], last);
      BoundedRefinesUnbounded(
        Check(m, limits, qs[0]).0, CheckUnbounded(memory, limits, qs[0]).0, limits, qs[1..], qs[0].now);
    }
  }

  // ---- One key on its own ----

  // How many of these hits on one key are allowed at times in [from, from + RATE_LIMIT_WINDOW_MS].
  function AllowedWithin(window: Option<RateWindow>, limit: nat, times: seq<int>, from: int): nat
    requires limit > 0
    decreases times
  {
    if times == [] then 0
    else
      var (window', decision) := Hit(window, times[0], limit);
      (if decision.allowed && from <= times[0] <= from + RATE_LIMIT_WINDOW_MS then 1 else 0)
      + AllowedWithin(Some(window'), limit, times[1..], from)
  }

  ghost predicate SortedFrom(times: seq<int>, last: int) {
    times != [] ==> times[0] >= last && SortedFrom(times[1..], times[0])
  }

  // The most that can still be allowed in the interval, from the window the
  // last hit left and the time of that hit.
  function Allowance(window: Option<RateWindow>, last: int, limit: nat, from: int): nat {
    if window.None? || last < from then 2 * limit
    else
      var openedAt := window.value.resetAt - RATE_LIMIT_WINDOW_MS;
      var left := if window.value.count < limit then limit - window.value.count else 0;
      if openedAt <= from then left + limit
      else if openedAt <= from + RATE_LIMIT_WINDOW_MS then left
      else 0
  }

  ghost predicate HitAt(window: Option<RateWindow>, last: int) {
    window.Some? ==> window.value.resetAt - RATE_LIMIT_WINDOW_MS <= last < window.value.resetAt
  }

  lemma {:induction false} AllowanceBounds(
    window: Option<RateWindow>, last: int, limit: nat, times: seq<int>, from: int)
    requires limit > 0 && SortedFrom(times, last) && HitAt(window, last)
    ensures AllowedWithin(window, limit, times, from) <= Allowance(window, last, limit, from)
    decreases times
  {
    if times != [] {
      var window' := Hit(window, times[0], limit).0;
      AllowanceBounds(Some(window'), times[0], limit, times[1..], from);
    }
  }

  // The flag of each hit on one key.
  function AllowedFlags(window: Option<RateWindow>, limit: nat, times: seq<int>): seq<bool>
    requires limit > 0
    decreases times
  {
    if times == [] then []
    else
      var (window', decision) := Hit(window, times[0], limit);
      [decision.allowed] + AllowedFlags(Some(window'), limit, times[1..])
  }

  lemma {:induction false} FlagsInsideWindow(window: RateWindow, limit: nat, times: seq<int>)
    requires limit > 0 && forall t :: t in times ==> t < window.resetAt
    ensures AllowedFlags(Some(window), limit, times) == seq(|times|, i => window.count + 1 + i <= limit)
    decreases times
  {
    if times != [] {
      assert times[0] in times && forall t :: t in times[1..] ==> t in times;
      var window' := Hit(Some(window), times[0], limit).0;
      FlagsInsideWindow(window', limit, times[1..]);
    }
  }

  // ---- Which limit ----

  /** Each limited path is counted against its own setting, which a decision
      names; 0 switches it off, and no other path is limited. */
  lemma EachPathHasItsLimit(m: Windows, limits: RateLimits, q: Request)
    ensures var (m', d) := Check(m, limits, q);
            var own := if q.pathname == "/webform/instance" then limits.webform
                       else if q.pathname == "/envelope/instance" then limits.envelope
                       else if q.pathname == "/webhook/esign" then limits.webhook
                       else if q.pathname == "/graphql" then limits.graphql
                       else 0;
            && (d.Some? <==> own > 0) && (d.None? ==> m' == m)
            && (d.Some? ==> d.value.limit == own && d.value.remaining < own && (d.value.remaining > 0 ==> d.value.allowed))
  {
    PathsDiffer();
  }

  lemma PathsDiffer()
    ensures "/webform/instance"[4] == 'f' && "/envelope/instance"[1] == 'e'
    ensures "/webhook/esign"[4] == 'h' && "/graphql"[1] == 'g'
  {
  }

  // ---- One key inside a run ----

  /** Different routes or clients never share a window. */
  lemma KeysAreDistinct(r1: Route, c1: string, r2: Route, c2: string)
    requires KeyOf(r1, c1) == KeyOf(r2, c2)
    ensures r1 == r2 && c1 == c2
  {
    var key := KeyOf(r1, c1);
    assert key[0] == RouteName(r1)[0] == RouteName(r2)[0];
    assert key[3] == RouteName(r1)[3] == RouteName(r2)[3];
    assert r1 == r2;
    assert key[|RouteName(r1)| + 1..] == c1 && key[|RouteName(r1)| + 1..] == c2;
  }

  // Whether a request is counted under this key.
  predicate IsFor(limits: RateLimits, q: Request, key: string) {
    Counted(limits, q).Some? && Counted(limits, q).value.1 == key
  }

  function TimesFor(limits: RateLimits, qs: seq<Request>, key: string): seq<int> {
    if qs == [] then []
    else (if IsFor(limits, qs[0], key) then [qs[0].now] else []) + TimesFor(limits, qs[1..], key)
  }

  // How many requests for the key the limiter allows in the interval.
  function AllowedInRun(m: Windows, limits: RateLimits, qs: seq<Request>, key: string, from: int): nat
    decreases qs
  {
    if qs == [] then 0
    else
      var (m', d) := Check(m, limits, qs[0]);
      (if IsFor(limits, qs[0], key) && d.value.allowed && from <= qs[0].now <= from + RATE_LIMIT_WINDOW_MS then 1 else 0)
      + AllowedInRun(m', limits, qs[1..], key, from)
  }

  // The flag of each request for the key.
  function FlagsInRun(m: Windows, limits: RateLimits, qs: seq<Request>, key: string): seq<bool>
    decreases qs
  {
    if qs == [] then []
    else
      var (m', d) := Check(m, limits, qs[0]);
      (if IsFor(limits, qs[0], key) then [d.value.allowed] else []) + FlagsInRun(m', limits, qs[1..], key)
  }

  // Times never go back and no sweep evicts the key while its window is live.
  ghost predicate NeverEvicted(m: Windows, limits: RateLimits, qs: seq<Request>, key: string, last: int)
    decreases qs
  {
    qs != [] ==>
      && qs[0].now >= last
      && (Counted(limits, qs[0]).Some? ==> Live(Get(Found(m, qs[0].now), key), qs[0].now) == Live(Get(m, key), qs[0].now))
      && NeverEvicted(Check(m, limits, qs[0]).0, limits, qs[1..], key, qs[0].now)
  }

  lemma SameLimit(limits: RateLimits, q1: Request, q2: Request, key: string)
    requires IsFor(limits, q1, key) && IsFor(limits, q2, key)
    ensures Counted(limits, q1).value.0 == Counted(limits, q2).value.0
  {
    KeysAreDistinct(LimitedRoute(q1.pathname).value, q1.client, LimitedRoute(q2.pathname).value, q2.client);
  }

  lemma {:induction false} RunIsKeyOnItsOwn(
    m: Windows, limits: RateLimits, qs: seq<Request>, key: string, limit: nat, window: Option<RateWindow>, last: int, from: int)
    requires NeverEvicted(m, limits, qs, key, last) && limit > 0
    requires forall q :: q in qs && IsFor(limits, q, key) ==> Counted(limits, q).value.0 == limit
    requires Live(Get(m, key), last) == Live(window, last)
    ensures AllowedInRun(m, limits, qs, key, from) == AllowedWithin(window, limit, TimesFor(limits, qs, key), from)
    ensures FlagsInRun(m, limits, qs, key) == AllowedFlags(window, limit, TimesFor(limits, qs, key))
    decreases qs
  {
    if qs != [] {
      var q, m' := qs[0], Check(m, limits, qs[0]).0;
      var times := TimesFor(limits, qs[1..], key);
      assert forall x :: x in qs[1..] ==> x in qs;
      OneRequest(m, limits, q, key, window, last);
      if IsFor(limits, q, key) {
        assert q in qs;
        assert TimesFor(limits, qs, key)[1..] == times;
        RunIsKeyOnItsOwn(m', limits, qs[1..], key, limit, Some(Hit(window, q.now, limit).0), q.now, from);
      } else {
        assert TimesFor(limits, qs, key) == times;
        RunIsKeyOnItsOwn(m', limits, qs[1..], key, limit, window, q.now, from);
      }
    }
  }

  lemma OneRequest(m: Windows, limits: RateLimits, q: Request, key: string, window: Option<RateWindow>, last: int)
    requires q.now >= last && Live(Get(m, key), last) == Live(window, last)
    requires Counted(limits, q).Some? ==> Live(Get(Found(m, q.now), key), q.now) == Live(Get(m, key), q.now)
    ensures var (m', d) := Check(m, limits, q);
            if IsFor(limits, q, key) then
              var (w, d') := Hit(window, q.now, Counted(limits, q).value.0);
              d == Some(d') && Get(m', key) == Some(w)
            else Live(Get(m', key), q.now) == Live(window, q.now)
  {
    match Counted(limits, q)
    case None =>
    case Some((limit, k)) =>
      var found := Found(m, q.now);
      GetSet(found, k, Hit(Get(found, k), q.now, limit).0, key);
  }

  lemma {:induction false} TimesAreSorted(m: Windows, limits: RateLimits, qs: seq<Request>, key: string, last: int)
    requires NeverEvicted(m, limits, qs, key, last)
    ensures SortedFrom(TimesFor(limits, qs, key), last)
    decreases qs
  {
    if qs != [] {
      TimesAreSorted(Check(m, limits, qs[0]).0, limits, qs[1..], key, qs[0].now);
      var times := TimesFor(limits, qs[1..], key);
      if IsFor(limits, qs[0], key) {
        assert ([qs[0].now] + times)[1..] == times;
      } else {
        assert TimesFor(limits, qs, key) == times;
      }
    }
  }

  lemma LimitsOfKey(limits: RateLimits, qs: seq<Request>, q: Request)
    requires Counted(limits, q).Some?
    ensures forall x :: x in qs && IsFor(limits, x, Counted(limits, q).value.1)
                        ==> Counted(limits, x).value.0 == Counted(limits, q).value.0
  {
    forall x | x in qs && IsFor(limits, x, Counted(limits, q).value.1)
      ensures Counted(limits, x).value.0 == Counted(limits, q).value.0
    {
      SameLimit(limits, x, q, Counted(limits, q).value.1);
    }
  }

  /** For a client and route whose live window is never evicted, no closed
      interval as long as the window contains more than twice the limit of
      allowed requests. */
  lemma BurstBound(limits: RateLimits, qs: seq<Request>, q: Request, from: int, start: int)
    requires q in qs && Counted(limits, q).Some?
    requires NeverEvicted([], limits, qs, Counted(limits, q).value.1, start)
    ensures AllowedInRun([], limits, qs, Counted(limits, q).value.1, from) <= 2 * Counted(limits, q).value.0
  {
    var (limit, key) := Counted(limits, q).value;
    LimitsOfKey(limits, qs, q);
    RunIsKeyOnItsOwn([], limits, qs, key, limit, None, start, from);
    TimesAreSorted([], limits, qs, key, start);
    AllowanceBounds(None, start, limit, TimesFor(limits, qs, key), from);
  }

  /** Whatever else the limiter is asked in between: of one client's requests
      to a route, from one that finds no live window to the end of the window
      it opens, exactly the first `limit` are allowed. */
  lemma WindowAdmitsItsLimit(m: Windows, limits: RateLimits, q: Request, qs: seq<Request>)
    requires Counted(limits, q).Some? && Live(Get(m, Counted(limits, q).value.1), q.now) == None
    requires NeverEvicted(m, limits, [q] + qs, Counted(limits, q).value.1, q.now)
    requires forall t :: t in TimesFor(limits, qs, Counted(limits, q).value.1) ==> t < q.now + RATE_LIMIT_WINDOW_MS
    ensures var (limit, key) := Counted(limits, q).value;
            FlagsInRun(m, limits, [q] + qs, key) == seq(1 + |TimesFor(limits, qs, key)|, i => i < limit)
  {
    var (limit, key) := Counted(limits, q).value;
    var times := TimesFor(limits, qs, key);
    assert ([q] + qs)[1..] == qs;
    LimitsOfKey(limits, [q] + qs, q);
    RunIsKeyOnItsOwn(m, limits, [q] + qs, key, limit, None, q.now, 0);
    assert TimesFor(limits, [q] + qs, key) == [q.now] + times;
    FlagsFromOpening(q.now, limit, times);
  }

  lemma FlagsFromOpening(now: int, limit: nat, times: seq<int>)
    requires limit > 0 && forall t :: t in times ==> t < now + RATE_LIMIT_WINDOW_MS
    ensures AllowedFlags(None, limit, [now] + times) == seq(1 + |times|, i => i < limit)
  {
    assert ([now] + times)[1..] == times;
    FlagsInsideWindow(Hit(None, now, limit).0, limit, times);
  }

  function LastTime(qs: seq<Request>, start: int): int {
    if qs == [] then start else qs[|qs| - 1].now
  }

  ghost predicate ClockForward(qs: seq<Request>, last: int) {
    qs != [] ==> qs[0].now >= last && ClockForward(qs[1..], qs[0].now)
  }

  // No window elapses later than one opened now would.
  ghost predicate ElapsesInTime(m: Windows, now: int) {
    forall e :: e in m ==> e.value.resetAt <= now + RATE_LIMIT_WINDOW_MS
  }

  lemma CheckElapsesInTime(m: Windows, limits: RateLimits, q: Request)
    requires ElapsesInTime(m, q.now)
    ensures ElapsesInTime(Check(m, limits, q).0, q.now)
  {
    match Counted(limits, q)
    case None =>
    case Some((limit, key)) =>
      var found := Found(m, q.now);
      FilterMembers(m, (e: Entry<string, RateWindow>) => e.value.resetAt > q.now);
      assert forall e :: e in found ==> e in m;
      GetMember(found, key);
      var e' := Entry(key, Hit(Get(found, key), q.now, limit).0);
      assert forall e :: e in Set(found, key, e'.value) ==> e == e' || e in found;
  }

  lemma {:induction false} RunElapsesInTime(m: Windows, limits: RateLimits, qs: seq<Request>, last: int)
    requires ElapsesInTime(m, last) && ClockForward(qs, last)
    ensures ElapsesInTime(Windowed(m, limits, qs), LastTime(qs, last))
    decreases qs
  {
    if qs != [] {
      CheckElapsesInTime(m, limits, qs[0]);
      RunElapsesInTime(Check(m, limits, qs[0]).0, limits, qs[1..], qs[0].now);
    }
  }

  /** After any run, a decision tells the truth about what follows: of the
      client's further requests in its window exactly the first `remaining` are
      allowed, whatever other requests come between, and the window elapses
      within `resetSeconds` seconds, not a whole second sooner. */
  lemma DecisionIsHonest(limits: RateLimits, start: int, before: seq<Request>, q: Request, after: seq<Request>)
    requires Counted(limits, q).Some? && ClockForward(before, start) && q.now >= LastTime(before, start)
    requires var m' := Check(Windowed([], limits, before), limits, q).0;
             var key := Counted(limits, q).value.1;
             && NeverEvicted(m', limits, after, key, q.now)
             && forall t :: t in TimesFor(limits, after, key) ==> Live(Get(m', key), t).Some?
    ensures var (m', d) := Check(Windowed([], limits, before), limits, q);
            var key := Counted(limits, q).value.1;
            && Get(m', key).Some? && d.Some?
            && FlagsInRun(m', limits, after, key) == seq(|TimesFor(limits, after, key)|, i => i < d.value.remaining)
            && (d.value.resetSeconds - 1) * 1000 < Get(m', key).value.resetAt - q.now <= d.value.resetSeconds * 1000
            && 1 <= d.value.resetSeconds <= RATE_LIMIT_WINDOW_MS / 1000
  {
    var m := Windowed([], limits, before);
    var (limit, key) := Counted(limits, q).value;
    RunElapsesInTime([], limits, before, start);
    FilterMembers(m, (e: Entry<string, RateWindow>) => e.value.resetAt > q.now);
    var found := Found(m, q.now);
    assert forall e :: e in found ==> e in m;
    GetMember(found, key);
    HonestAt(found, limits, limit, key, q, Check(m, limits, q).0, after);
  }

  lemma HonestAt(
    found: Windows, limits: RateLimits, limit: nat, key: string, q: Request, m': Windows, after: seq<Request>)
    requires Counted(limits, q) == Some((limit, key)) && m' == Set(found, key, Hit(Get(found, key), q.now, limit).0)
    requires Get(found, key).Some? ==> Get(found, key).value.resetAt <= q.now + RATE_LIMIT_WINDOW_MS
    requires NeverEvicted(m', limits, after, key, q.now)
    requires forall t :: t in TimesFor(limits, after, key) ==> Live(Get(m', key), t).Some?
    ensures var (w, d) := Hit(Get(found, key), q.now, limit);
            && Get(m', key) == Some(w)
            && FlagsInRun(m', limits, after, key) == seq(|TimesFor(limits, after, key)|, i => i < d.remaining)
            && (d.resetSeconds - 1) * 1000 < w.resetAt - q.now <= d.resetSeconds * 1000
            && 1 <= d.resetSeconds <= RATE_LIMIT_WINDOW_MS / 1000
  {
    var w := Hit(Get(found, key), q.now, limit).0;
    GetSet(found, key, w, key);
    LimitsOfKey(limits, after, q);
    RunIsKeyOnItsOwn(m', limits, after, key, limit, Some(w), q.now, 0);
    FlagsInsideWindow(w, limit, TimesFor(limits, after, key));
  }

  // ---- Which windows a sweep evicts ----

  // Every live window the sweep evicts elapses no later than any it keeps.
  ghost predicate EvictsSoonest(m: Windows, now: int, max: nat) {
    var live, kept := Unexpired(m, now), Swept(m, now, max);
    forall i, j :: 0 <= i < |live| - |kept| <= j < |live| ==> live[i].value.resetAt <= live[j].value.resetAt
  }

  ghost predicate AllLive(m: Windows, now: int) {
    forall e :: e in m ==> e.value.resetAt > now
  }

  ghost predicate FirstIsSoonest(m: Windows) {
    forall i :: 0 < i < |m| ==> m[0].value.resetAt <= m[i].value.resetAt
  }

  /** The sweep runs when the map is at its cap. It evicts a live window
      exactly when all are live: then the first one, and no other. So what it
      evicts is the soonest to elapse exactly when the map's first window is,
      or some window has elapsed. */
  lemma EvictsSoonestIffFirstIsSoonest(m: Windows, now: int)
    requires |m| == RATE_LIMIT_MAX_WINDOWS
    ensures Found(m, now) == if AllLive(m, now) then m[1..] else Unexpired(m, now)
    ensures EvictsSoonest(m, now, RATE_LIMIT_MAX_WINDOWS) <==> (AllLive(m, now) ==> FirstIsSoonest(m))
  {
    var live := (e: Entry<string, RateWindow>) => e.value.resetAt > now;
    if AllLive(m, now) {
      FilterIdempotent(m, live);
      if EvictsSoonest(m, now, RATE_LIMIT_MAX_WINDOWS) {
        assert |Unexpired(m, now)| - |Swept(m, now, RATE_LIMIT_MAX_WINDOWS)| == 1;
      }
    } else {
      FilterShrinks(m, live);
    }
  }

  lemma {:induction false} FilterShrinks<T(!new)>(s: seq<T>, keep: T -> bool)
    requires exists x :: x in s && !keep(x)
    ensures |Filter(s, keep)| < |s|
  {
    if keep(s[0]) {
      FilterShrinks(s[1..], keep);
    }
  }

  // One request for a key whose place in the map is known.
  lemma CheckAt(m: Windows, limits: RateLimits, q: Request, limit: nat, key: string, i: nat)
    requires Counted(limits, q) == Some((limit, key)) && |m| < RATE_LIMIT_MAX_WINDOWS && i <= |m|
    requires IndexOf(m, key) == i && (i < |m| ==> m[i].value.resetAt <= q.now)
    ensures var e := Entry(key, RateWindow(1, q.now + RATE_LIMIT_WINDOW_MS));
            Check(m, limits, q).0 == if i < |m| then m[i := e] else m + [e]
  {
  }

  // The map a key leaves that comes back after its window elapsed: it keeps
  // its old place, in front of a window that elapses sooner.
  function Returned(k1: string, k2: string): Windows {
    [Entry(k1, RateWindow(1, 120_000)), Entry(k2, RateWindow(1, 60_001))]
  }

  /** The first window need not be the soonest: a key that comes back after its
      window elapsed keeps its old place. Two clients of one route and three
      requests are enough; a sweep would now evict the window that elapses a
      minute later. */
  lemma ReturningKeyKeepsItsPlace(limits: RateLimits, pathname: string, c1: string, c2: string)
    requires Counted(limits, Request(pathname, c1, 0)).Some? && c1 != c2
    ensures var qs := [Request(pathname, c1, 0), Request(pathname, c2, 1), Request(pathname, c1, 60_000)];
            var route := LimitedRoute(pathname).value;
            var m := Windowed([], limits, qs);
            && m == Returned(KeyOf(route, c1), KeyOf(route, c2)) && !FirstIsSoonest(m)
            && Swept(m, 60_000, 2) == [Entry(KeyOf(route, c2), RateWindow(1, 60_001))]
  {
    var qs := [Request(pathname, c1, 0), Request(pathname, c2, 1), Request(pathname, c1, 60_000)];
    var route := LimitedRoute(pathname).value;
    var limit, k1, k2 := LimitOf(limits, route), KeyOf(route, c1), KeyOf(route, c2);
    if k1 == k2 {
      KeysAreDistinct(route, c1, route, c2);
    }
    var m1: Windows := [Entry(k1, RateWindow(1, 60_000))];
    var m2: Windows := [Entry(k1, RateWindow(1, 60_000)), Entry(k2, RateWindow(1, 60_001))];
    CheckAt([], limits, qs[0], limit, k1, 0);
    CheckAt(m1, limits, qs[1], limit, k2, 1);
    CheckAt(m2, limits, qs[2], limit, k1, 0);
    assert m2[0 := Entry(k1, RateWindow(1, 120_000))] == Returned(k1, k2);
    WindowedThree([], limits, qs[0], qs[1], qs[2]);
    ReturnedSwept(k1, k2);
  }

  lemma WindowedThree(m: Windows, limits: RateLimits, a: Request, b: Request, c: Request)
    ensures Windowed(m, limits, [a, b, c]) == Check(Check(Check(m, limits, a).0, limits, b).0, limits, c).0
  {
    assert [a, b, c] == [a] + [b, c] && [b, c] == [b] + [c];
    WindowedConcat(m, limits, [a], [b, c]);
    WindowedConcat(Check(m, limits, a).0, limits, [b], [c]);
  }

  lemma ReturnedSwept(k1: string, k2: string)
    ensures Swept(Returned(k1, k2), 60_000, 2) == [Entry(k2, RateWindow(1, 60_001))]
    ensures !FirstIsSoonest(Returned(k1, k2))
  {
    var m := Returned(k1, k2);
    FilterIdempotent(m, (e: Entry<string, RateWindow>) => e.value.resetAt > 60_000);
    assert m[0].value.resetAt > m[1].value.resetAt;
  }

  // One request each from clients that have no window.
  function Arrivals(pathname: string, clients: seq<string>, now: int): seq<Request> {
    seq(|clients|, i requires 0 <= i < |clients| => Request(pathname, clients[i], now))
  }

  function WindowsOf(route: Route, clients: seq<string>, now: int): Windows {
    seq(|clients|, i requires 0 <= i < |clients| =>
      Entry(KeyOf(route, clients[i]), RateWindow(1, now + RATE_LIMIT_WINDOW_MS)))
  }

  ghost predicate NewClients(m: Windows, route: Route, clients: seq<string>) {
    && (forall i, j :: 0 <= i < j < |clients| ==> clients[i] != clients[j])
    && forall c, e :: c in clients && e in m ==> e.key != KeyOf(route, c)
  }

  lemma {:induction false} ArrivalsFill(m: Windows, limits: RateLimits, pathname: string, clients: seq<string>, now: int)
    requires LimitedRoute(pathname).Some? && LimitOf(limits, LimitedRoute(pathname).value) > 0
    requires NewClients(m, LimitedRoute(pathname).value, clients) && |m| + |clients| <= RATE_LIMIT_MAX_WINDOWS
    ensures Windowed(m, limits, Arrivals(pathname, clients, now))
            == m + WindowsOf(LimitedRoute(pathname).value, clients, now)
    decreases clients
  {
    var route := LimitedRoute(pathname).value;
    if clients == [] {
      assert m + [] == m;
    } else {
      var q, rest := Request(pathname, clients[0], now), clients[1..];
      var e := Entry(KeyOf(route, clients[0]), RateWindow(1, now + RATE_LIMIT_WINDOW_MS));
      assert clients[0] in clients;
      CheckAt(m, limits, q, LimitOf(limits, route), e.key, |m|);
      assert Arrivals(pathname, clients, now)[1..] == Arrivals(pathname, rest, now);
      assert WindowsOf(route, clients, now) == [e] + WindowsOf(route, rest, now);
      NextClientsAreNew(m, route, clients, e);
      ArrivalsFill(m + [e], limits, pathname, rest, now);
      Associative(m, [e], WindowsOf(route, rest, now));
    }
  }

  lemma NextClientsAreNew(m: Windows, route: Route, clients: seq<string>, e: Entry<string, RateWindow>)
    requires NewClients(m, route, clients) && clients != [] && e.key == KeyOf(route, clients[0])
    ensures NewClients(m + [e], route, clients[1..])
  {
    forall c, x | c in clients[1..] && x in m + [e] ensures x.key != KeyOf(route, c) {
      assert c in clients;
      if x == e && x.key == KeyOf(route, c) {
        KeysAreDistinct(route, clients[0], route, c);
      }
    }
  }

  lemma {:induction false} WindowedConcat(m: Windows, limits: RateLimits, a: seq<Request>, b: seq<Request>)
    ensures Windowed(m, limits, a + b) == Windowed(Windowed(m, limits, a), limits, b)
    decreases a
  {
    if a == [] {
      assert a + b == b;
    } else {
      assert (a + b)[1..] == a[1..] + b;
      WindowedConcat(Check(m, limits, a[0]).0, limits, a[1..], b);
    }
  }

  /** So it happens at the cap: once 10000 clients of one route have live
      windows, the next request evicts the one that elapses at 120000 and
      keeps the one that elapses at 60001. */
  lemma SweepEvictsTheLaterWindow(limits: RateLimits, pathname: string, c1: string, c2: string, others: seq<string>)
    requires Counted(limits, Request(pathname, c1, 0)).Some? && |others| == RATE_LIMIT_MAX_WINDOWS - 2
    requires NewClients([], LimitedRoute(pathname).value, [c1, c2] + others)
    ensures var qs := [Request(pathname, c1, 0), Request(pathname, c2, 1), Request(pathname, c1, 60_000)]
                      + Arrivals(pathname, others, 60_000);
            var route := LimitedRoute(pathname).value;
            var m := Windowed([], limits, qs);
            && |m| == RATE_LIMIT_MAX_WINDOWS && !EvictsSoonest(m, 60_000, RATE_LIMIT_MAX_WINDOWS)
            && Get(m, KeyOf(route, c1)) == Some(RateWindow(1, 120_000))
            && m[1] == Entry(KeyOf(route, c2), RateWindow(1, 60_001))
            && Found(m, 60_000) == m[1..]
  {
    var route := LimitedRoute(pathname).value;
    var m3 := Returned(KeyOf(route, c1), KeyOf(route, c2));
    assert c1 != c2 by {
      assert ([c1, c2] + others)[0] == c1 && ([c1, c2] + others)[1] == c2;
    }
    ReturningKeyKeepsItsPlace(limits, pathname, c1, c2);
    WindowedConcat(
      [], limits, [Request(pathname, c1, 0), Request(pathname, c2, 1), Request(pathname, c1, 60_000)],
      Arrivals(pathname, others, 60_000));
    OthersAreNew(route, c1, c2, others);
    ArrivalsFill(m3, limits, pathname, others, 60_000);
    FullAndLive(route, c1, c2, others);
  }

  lemma FullAndLive(route: Route, c1: string, c2: string, others: seq<string>)
    requires |others| == RATE_LIMIT_MAX_WINDOWS - 2
    ensures var m := Returned(KeyOf(route, c1), KeyOf(route, c2)) + WindowsOf(route, others, 60_000);
            && |m| == RATE_LIMIT_MAX_WINDOWS && !EvictsSoonest(m, 60_000, RATE_LIMIT_MAX_WINDOWS)
            && Get(m, KeyOf(route, c1)) == Some(RateWindow(1, 120_000))
            && m[1] == Entry(KeyOf(route, c2), RateWindow(1, 60_001))
            && Found(m, 60_000) == m[1..]
  {
    var m := Returned(KeyOf(route, c1), KeyOf(route, c2)) + WindowsOf(route, others, 60_000);
    assert m[0].value.resetAt == 120_000 && m[1].value.resetAt == 60_001;
    EvictsSoonestIffFirstIsSoonest(m, 60_000);
  }

  lemma OthersAreNew(route: Route, c1: string, c2: string, others: seq<string>)
    requires NewClients([], route, [c1, c2] + others)
    ensures NewClients(Returned(KeyOf(route, c1), KeyOf(route, c2)), route, others)
  {
    var all := [c1, c2] + others;
    assert forall i :: 0 <= i < |others| ==> others[i] == all[i + 2];
    assert all[0] == c1 && all[1] == c2;
    forall c | c in others ensures KeyOf(route, c) != KeyOf(route, c1) && KeyOf(route, c) != KeyOf(route, c2) {
      var i :| 0 <= i < |others| && others[i] == c;
      assert all[i + 2] == c;
      if KeyOf(route, c) == KeyOf(route, c1) {
        KeysAreDistinct(route, c, route, c1);
      }
      if KeyOf(route, c) == KeyOf(route, c2) {
        KeysAreDistinct(route, c, route, c2);
      }
    }
  }
}
