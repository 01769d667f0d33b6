/**
 The fixed-window rate limiter (packages/esign-service/src/server.ts): one
 counter per client and route in an insertion-ordered map, swept when the map
 reaches its cap.
 */
module RateLimiter {
  import opened Common
  import opened JsCollections

  const RATE_LIMIT_WINDOW_MS := 60_000
  const RATE_LIMIT_MAX_WINDOWS := 10_000

  datatype Route = Webform | Envelope | Webhook | Graphql

  // Requests per minute for each route; 0 switches a route's limit off.
  datatype RateLimits = RateLimits(webform: nat, envelope: nat, webhook: nat, graphql: nat)

  datatype RateWindow = RateWindow(count: nat, resetAt: int)

  type Windows = Entries<string, RateWindow>

  datatype Request = Request(pathname: string, client: string, now: int)

  datatype Decision = Decision(allowed: bool, limit: nat, remaining: nat, resetSeconds: int)

  function LimitedRoute(pathname: string): Option<Route> {
    if pathname == "/webform/instance" then Some(Webform)
    else if pathname == "/envelope/instance" then Some(Envelope)
    else if pathname == "/webhook/esign" then Some(Webhook)
    else if pathname == "/graphql" then Some(Graphql)
    else None
  }

  function LimitOf(limits: RateLimits, route: Route): nat {
    match route
    case Webform => limits.webform
    case Envelope => limits.envelope
    case Webhook => limits.webhook
    case Graphql => limits.graphql
  }

  function RouteName(route: Route): string {
    match route
    case Webform => "webform"
    case Envelope => "envelope"
    case Webhook => "webhook"
    case Graphql => "graphql"
  }

  function KeyOf(route: Route, client: string): string {
    RouteName(route) + ":" + client
  }

  // The limit and key a request is counted under, if it is limited at all.
  function Counted(limits: RateLimits, q: Request): (r: Option<(nat, string)>)
    ensures r.Some? ==> r.value.0 > 0
  {
    match LimitedRoute(q.pathname)
    case None => None
    case Some(route) =>
      if LimitOf(limits, route) == 0 then None else Some((LimitOf(limits, route), KeyOf(route, q.client)))
  }

  // ---- The sweep ----

  function Unexpired(m: Windows, now: int): Windows {
    Filter(m, (e: Entry<string, RateWindow>) => e.value.resetAt > now)
  }

  function LastOf<T>(s: seq<T>, n: nat): seq<T> {
    if |s| <= n then s else s[|s| - n..]
  }

  // The last max - 1 unexpired entries in insertion order, or all of them if
  // there are fewer.
  function Swept(m: Windows, now: int, max: nat): Windows {
    LastOf(Unexpired(m, now), if max == 0 then 0 else max - 1)
  }

  // The two loops delete from the map they walk. The first stands on an index
  // of the shrinking map, the second always on the first key.
  method SweepWindows(windows: OrderedMap<string, RateWindow>, now: int, max: nat)
    requires DistinctKeys(windows.entries)
    modifies windows
    ensures windows.entries == Swept(old(windows.entries), now, max)
    ensures DistinctKeys(windows.entries)
  {
    DropExpired(windows, now);
    DropOldest(windows, max);
  }

  method DropExpired(windows: OrderedMap<string, RateWindow>, now: int)
    requires DistinctKeys(windows.entries)
    modifies windows
    ensures windows.entries == Unexpired(old(windows.entries), now)
    ensures DistinctKeys(windows.entries)
  {
    ghost var before := windows.entries;
    var i := 0;
    ghost var k := 0;
    while i < |windows.entries|
      invariant 0 <= k <= |before|
      invariant Walked(before, windows.entries, now, k, i)
      invariant DistinctKeys(windows.entries)
    {
      var e := windows.entries[i];
      WalkNext(before, windows.entries, now, k, i);
      if e.value.resetAt <= now {
        windows.Remove(e.key);
      } else {
        i := i + 1;
      }
      k := k + 1;
    }
    assert before[..k] == before;
  }

  // The first k entries have been looked at: those still live come first, i
  // of them, and the rest of the map follows.
  ghost predicate Walked(before: Windows, entries: Windows, now: int, k: int, i: int) {
    0 <= k <= |before| && i == |Unexpired(before[..k], now)|
    && entries == Unexpired(before[..k], now) + before[k..]
  }

  lemma WalkNext(before: Windows, entries: Windows, now: int, k: int, i: int)
    requires Walked(before, entries, now, k, i) && 0 <= i < |entries| && DistinctKeys(entries)
    ensures k < |before| && entries[i] == before[k]
    ensures if before[k].value.resetAt <= now then Walked(before, Delete(entries, entries[i].key), now, k + 1, i)
            else Walked(before, entries, now, k + 1, i + 1)
  {
    var live := Unexpired(before[..k], now);
    assert before[k..] == [before[k]] + before[k + 1..];
    UnexpiredNext(before, now, k);
    if before[k].value.resetAt <= now {
      DeleteAt(entries, i);
      assert entries[..i] == live && entries[i + 1..] == before[k + 1..];
    } else {
      Associative(live, [before[k]], before[k + 1..]);
    }
  }

  lemma UnexpiredNext(m: Windows, now: int, k: nat)
    requires k < |m|
    ensures Unexpired(m[..k + 1], now) == Unexpired(m[..k], now) + if m[k].value.resetAt > now then [m[k]] else []
  {
    assert m[..k + 1] == m[..k] + [m[k]];
    FilterConcat(m[..k], [m[k]], (e: Entry<string, RateWindow>) => e.value.resetAt > now);
    FilterCons(m[k], [], (e: Entry<string, RateWindow>) => e.value.resetAt > now);
  }

  method DropOldest(windows: OrderedMap<string, RateWindow>, max: nat)
    requires DistinctKeys(windows.entries)
    modifies windows
    ensures windows.entries == LastOf(old(windows.entries), if max == 0 then 0 else max - 1)
    ensures DistinctKeys(windows.entries)
  {
    ghost var kept := windows.entries;
    ghost var dropped := 0;
    while |windows.entries| > 0
      invariant 0 <= dropped <= |kept|
      invariant windows.entries == kept[dropped..]
      invariant dropped > 0 ==> |kept| - dropped >= if max == 0 then 0 else max - 1
      invariant DistinctKeys(windows.entries)
    {
      if |windows.entries| < max {
        break;
      }
      DeleteAt(windows.entries, 0);
      windows.Remove(windows.entries[0].key);
      dropped := dropped + 1;
    }
  }

  // ---- One request ----

  // One request against its key's window (None: there is none).
  function Hit(window: Option<RateWindow>, now: int, limit: nat): (RateWindow, Decision)
    requires limit > 0
  {
    if window.None? || window.value.resetAt <= now then
      (RateWindow(1, now + RATE_LIMIT_WINDOW_MS), Decision(true, limit, limit - 1, RATE_LIMIT_WINDOW_MS / 1000))
    else
      var count := window.value.count + 1;
      (window.value.(count := count),
       Decision(count <= limit, limit, if count < limit then limit - count else 0,
                (window.value.resetAt - now + 999) / 1000))
  }

  // The windows a request finds: swept first when the map is at its cap.
  function Found(m: Windows, now: int): Windows {
    if |m| >= RATE_LIMIT_MAX_WINDOWS then Swept(m, now, RATE_LIMIT_MAX_WINDOWS) else m
  }

  function Check(m: Windows, limits: RateLimits, q: Request): (Windows, Option<Decision>) {
    match Counted(limits, q)
    case None => (m, None)
    case Some((limit, key)) =>
      var m' := Found(m, q.now);
      var (window, decision) := Hit(Get(m', key), q.now, limit);
      (Set(m', key, window), Some(decision))
  }

  class Limiter {
    const limits: RateLimits
    const windows: OrderedMap<string, RateWindow>

    ghost predicate Valid()
      reads windows
    {
      DistinctKeys(windows.entries) && |windows.entries| <= RATE_LIMIT_MAX_WINDOWS
    }

    constructor (limits: RateLimits)
      ensures Valid() && this.limits == limits && fresh(windows) && windows.entries == []
    {
      this.limits := limits;
      this.windows := new OrderedMap();
    }

    method Decide(pathname: string, client: string, now: int) returns (decision: Option<Decision>)
      requires Valid()
      modifies windows
      ensures Valid()
      ensures (windows.entries, decision) == Check(old(windows.entries), limits, Request(pathname, client, now))
    {
      var counted := Counted(limits, Request(pathname, client, now));
      if counted.None? {
        return None;
      }
      var (limit, key) := counted.value;
      if |windows.entries| >= RATE_LIMIT_MAX_WINDOWS {
        SweepWindows(windows, now, RATE_LIMIT_MAX_WINDOWS);
      }
      var window := Get(windows.entries, key);
      if window.None? || window.value.resetAt <= now {
        windows.Put(key, RateWindow(1, now + RATE_LIMIT_WINDOW_MS));
        return Some(Decision(true, limit, limit - 1, RATE_LIMIT_WINDOW_MS / 1000));
      }
      var count := window.value.count + 1;
      windows.Put(key, window.value.(count := count));
      var remaining := if count < limit then limit - count else 0;
      return Some(Decision(count <= limit, limit, remaining, (window.value.resetAt - now + 999) / 1000));
    }
  }
}
