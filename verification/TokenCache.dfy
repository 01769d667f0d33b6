/**
 The access-token cache (packages/esign-node/src/providers/docusign/auth.ts):
 one cached token, at most one refresh in flight, shared by every caller that
 arrives meanwhile. A refresh passes through three moments that other callers
 can fall between: the request is out, its promise has settled (and the token
 is cached), and its `finally` has run.
 */
module TokenCache {
  import opened Common

  const EXPIRY_MARGIN_MS := 5 * 60 * 1000

  datatype Cached = Cached(token: string, expiresAt: int)

  datatype Outcome = Token(token: string) | Failure(error: string)

  datatype Flight = Requested | Settled(outcome: Outcome) | Finished(outcome: Outcome)

  // What a caller holds: a token from the cache (with the clock and expiry it
  // was served at), a place in a flight, or that flight's outcome.
  datatype Caller =
    | FromCache(token: string, at: int, expiresAt: int)
    | Waiting(flight: nat)
    | Answered(flight: nat, outcome: Outcome)

  // The provider's variables and every token request it has made, in order.
  datatype State = State(cached: Option<Cached>, inFlight: Option<nat>, flights: seq<Flight>)

  function GetAccessToken(s: State, now: int): (State, Caller) {
    if s.cached.Some? && s.cached.value.expiresAt > now + EXPIRY_MARGIN_MS then
      (s, FromCache(s.cached.value.token, now, s.cached.value.expiresAt))
    else if s.inFlight.None? then
      (s.(inFlight := Some(|s.flights|), flights := s.flights + [Requested]), Waiting(|s.flights|))
    else (s, Waiting(s.inFlight.value))
  }

  function RefreshSucceeds(s: State, f: nat, token: string, expiresIn: int, now: int): State {
    if f < |s.flights| && s.flights[f] == Requested then
      s.(cached := Some(Cached(token, now + expiresIn * 1000)), flights := s.flights[f := Settled(Token(token))])
    else s
  }

  function RefreshFails(s: State, f: nat, error: string): State {
    if f < |s.flights| && s.flights[f] == Requested then s.(flights := s.flights[f := Settled(Failure(error))]) else s
  }

  function FinallyRuns(s: State, f: nat): State {
    if f < |s.flights| && s.flights[f].Settled? then
      s.(inFlight := None, flights := s.flights[f := Finished(s.flights[f].outcome)])
    else s
  }

  // The provider's closure variables, overwritten step by step.
  class TokenProvider {
    var cached: Option<Cached>
    var inFlight: Option<nat>
    var flights: seq<Flight>

    function Contents(): State
      reads this
    {
      State(cached, inFlight, flights)
    }

    constructor ()
      ensures Contents() == State(None, None, [])
    {
      cached, inFlight, flights := None, None, [];
    }

    method Get(now: int) returns (caller: Caller)
      modifies this
      ensures (Contents(), caller) == GetAccessToken(old(Contents()), now)
    {
      if cached.Some? && cached.value.expiresAt > now + EXPIRY_MARGIN_MS {
        return FromCache(cached.value.token, now, cached.value.expiresAt);
      }
      if inFlight.None? {
        inFlight := Some(|flights|);
        flights := flights + [Requested];
      }
      return Waiting(inFlight.value);
    }

    method OnResponse(f: nat, response: Result<(string, int), string>, now: int)
      modifies this
      ensures Contents() == match response
                            case Ok((token, expiresIn)) => RefreshSucceeds(old(Contents()), f, token, expiresIn, now)
                            case Err(error) => RefreshFails(old(Contents()), f, error)
    {
      if f < |flights| && flights[f] == Requested {
        match response
        case Ok((token, expiresIn)) =>
          cached := Some(Cached(token, now + expiresIn * 1000));
          flights := flights[f := Settled(Token(token))];
        case Err(error) =>
          flights := flights[f := Settled(Failure(error))];
      }
    }

    method OnFinally(f: nat)
      modifies this
      ensures Contents() == FinallyRuns(old(Contents()), f)
    {
      if f < |flights| && flights[f].Settled? {
        inFlight := None;
        flights := flights[f := Finished(flights[f].outcome)];
      }
    }
  }

  // ---- Interleavings ----

  datatype World = World(now: int, state: State, callers: seq<Caller>)

  const START := World(0, State(None, None, []), [])

  datatype Event =
    | Call
    | Succeed(flight: nat, token: string, expiresIn: int)
    | Fail(flight: nat, error: string)
    | Finally(flight: nat)
    | Deliver(caller: nat)
    | Tick(ms: nat)

  function Next(w: World, e: Event): World {
    match e
    case Call =>
      var (state, caller) := GetAccessToken(w.state, w.now);
      w.(state := state, callers := w.callers + [caller])
    case Succeed(f, token, expiresIn) => w.(state := RefreshSucceeds(w.state, f, token, expiresIn, w.now))
    case Fail(f, error) => w.(state := RefreshFails(w.state, f, error))
    case Finally(f) => w.(state := FinallyRuns(w.state, f))
    case Deliver(c) =>
      // A caller whose flight has finished is told its outcome
      if c < |w.callers| && w.callers[c].Waiting? && w.callers[c].flight < |w.state.flights|
         && w.state.flights[w.callers[c].flight].Finished?
      then w.(callers := w.callers[c := Answered(w.callers[c].flight, w.state.flights[w.callers[c].flight].outcome)])
      else w
    case Tick(ms) => w.(now := w.now + ms)
  }

  function Run(w: World, events: seq<Event>): World
    decreases events
  {
    if events == [] then w else Run(Next(w, events[0]), events[1..])
  }

  // The token of the last request that succeeded.
  function LatestToken(flights: seq<Flight>): Option<string> {
    if flights == [] then None
    else
      match flights[|flights| - 1]
      case Settled(Token(token)) => Some(token)
      case Finished(Token(token)) => Some(token)
      case _ => LatestToken(flights[..|flights| - 1])
  }

  function TokenOf(cached: Option<Cached>): Option<string> {
    if cached.Some? then Some(cached.value.token) else None
  }

  // inFlight names the one flight whose finally has not run, always the last.
  ghost predicate SingleFlight(s: State) {
    && (forall f :: 0 <= f < |s.flights| && !s.flights[f].Finished? ==> s.inFlight == Some(f))
    && (s.inFlight.Some? ==> s.inFlight.value == |s.flights| - 1 && !s.flights[s.inFlight.value].Finished?)
  }

  ghost predicate CallerOk(w: World, caller: Caller) {
    match caller
    case FromCache(token, at, expiresAt) => expiresAt > at + EXPIRY_MARGIN_MS && at <= w.now
    case Waiting(f) => f < |w.state.flights|
    case Answered(f, outcome) => f < |w.state.flights| && w.state.flights[f] == Finished(outcome)
  }

  ghost predicate Safe(w: World) {
    && SingleFlight(w.state)
    && TokenOf(w.state.cached) == LatestToken(w.state.flights)
    && forall c :: c in w.callers ==> CallerOk(w, c)
  }

  lemma LatestTokenAfter(flights: seq<Flight>, flight: Flight)
    requires flights != []
    ensures LatestToken(flights[|flights| - 1 := flight]) == LatestToken(flights[..|flights| - 1] + [flight])
    ensures flight in {Requested} || (flight.Settled? && flight.outcome.Failure?)
            ==> LatestToken(flights[|flights| - 1 := flight]) == LatestToken(flights[..|flights| - 1])
  {
    var n := |flights| - 1;
    assert flights[n := flight] == flights[..n] + [flight];
    assert flights[n := flight][..n] == flights[..n];
  }

  lemma CallKeepsSafe(w: World)
    requires Safe(w)
    ensures Safe(Next(w, Call))
  {
    var w' := Next(w, Call);
    var n := |w.state.flights|;
    if w'.state.flights != w.state.flights {
      assert w'.state.flights[..n] == w.state.flights;
    }
    forall c | c in w'.callers ensures CallerOk(w', c) {
      if c in w.callers {
        assert CallerOk(w, c);
      }
    }
  }

  lemma FlightKeepsSafe(w: World, w': World, f: nat)
    requires Safe(w) && f < |w.state.flights| && !w.state.flights[f].Finished?
    requires w'.now == w.now && w'.callers == w.callers && |w'.state.flights| == |w.state.flights|
    requires w'.state.flights == w.state.flights[f := w'.state.flights[f]]
    requires SingleFlight(w'.state) && TokenOf(w'.state.cached) == LatestToken(w'.state.flights)
    ensures Safe(w')
  {
    forall c | c in w'.callers ensures CallerOk(w', c) {
      assert CallerOk(w, c);
    }
  }

  lemma NextKeepsSafe(w: World, e: Event)
    requires Safe(w)
    ensures Safe(Next(w, e))
  {
    var w' := Next(w, e);
    match e
    case Call => CallKeepsSafe(w);
    case Succeed(f, token, _) =>
      if w' != w {
        LatestTokenAfter(w.state.flights, Settled(Token(token)));
        FlightKeepsSafe(w, w', f);
      }
    case Fail(f, error) =>
      if w' != w {
        LatestTokenAfter(w.state.flights, Settled(Failure(error)));
        FlightKeepsSafe(w, w', f);
      }
    case Finally(f) =>
      if f < |w.state.flights| && w.state.flights[f].Settled? {
        LatestTokenAfter(w.state.flights, Finished(w.state.flights[f].outcome));
        FlightKeepsSafe(w, w', f);
      }
    case Deliver(_) =>
      forall c | c in w'.callers ensures CallerOk(w', c) {
        if c in w.callers {
          assert CallerOk(w, c);
        }
      }
    case Tick(_) =>
      forall c | c in w'.callers ensures CallerOk(w', c) {
        assert CallerOk(w, c);
      }
  }

  lemma {:induction false} RunKeepsSafe(w: World, events: seq<Event>)
    requires Safe(w)
    ensures Safe(Run(w, events))
    decreases events
  {
    if events != [] {
      NextKeepsSafe(w, events[0]);
      RunKeepsSafe(Next(w, events[0]), events[1..]);
    }
  }

  /** In every interleaving: at most one token request is outstanding, a token
      served from the cache had more than five minutes left, an answered caller
      was told the outcome of the flight it joined, and the cache holds the
      token of the last request that succeeded. */
  lemma SingleFlightSafety(events: seq<Event>)
    ensures var w := Run(START, events);
            && (forall f, g :: 0 <= f < g < |w.state.flights| ==>
                  w.state.flights[f] != Requested || w.state.flights[g] != Requested)
            && (forall c :: c in w.callers && c.FromCache? ==> c.expiresAt > c.at + EXPIRY_MARGIN_MS)
            && (forall c :: c in w.callers && c.Answered? ==> c.flight < |w.state.flights| && w.state.flights[c.flight] == Finished(c.outcome))
            && TokenOf(w.state.cached) == LatestToken(w.state.flights)
  {
    RunKeepsSafe(START, events);
    var w := Run(START, events);
    forall c | c in w.callers ensures CallerOk(w, c) {
    }
  }

  // A finished flight keeps its outcome, and a caller never leaves its flight.
  ghost predicate Follows(w: World, w': World, c: nat) {
    && c < |w.callers| <= |w'.callers|
    && |w.state.flights| <= |w'.state.flights|
    && (forall f :: 0 <= f < |w.state.flights| && w.state.flights[f].Finished? ==> w'.state.flights[f] == w.state.flights[f])
    && match w.callers[c]
       case Waiting(f) =>
         w'.callers[c] == Waiting(f)
         || (f < |w'.state.flights| && w'.state.flights[f].Finished? && w'.callers[c] == Answered(f, w'.state.flights[f].outcome))
       case _ => w'.callers[c] == w.callers[c]
  }

  /** Whatever happens after a caller joined a flight, it is either still
      waiting for that flight or was told the outcome that flight finished with. */
  lemma {:induction false} JoinerGetsItsFlight(w: World, events: seq<Event>, c: nat)
    requires c < |w.callers|
    ensures Follows(w, Run(w, events), c)
    decreases events
  {
    if events != [] {
      var w1 := Next(w, events[0]);
      JoinerGetsItsFlight(w1, events[1..], c);
    }
  }

  /** What a call gets: the token of the last request that succeeded, if the
      cache serves it; else a place in the one flight that has not finished, or
      in a new one if there is none. */
  lemma CallJoinsTheLiveFlight(w: World)
    requires Safe(w)
    ensures var w', n := Next(w, Call), |w.state.flights|;
            && |w'.callers| == |w.callers| + 1 && w'.callers[..|w.callers|] == w.callers
            && match w'.callers[|w.callers|]
               case FromCache(token, at, expiresAt) =>
                 w'.state == w.state && LatestToken(w.state.flights) == Some(token) && at == w.now
               case Waiting(f) =>
                 && f < |w'.state.flights| && !w'.state.flights[f].Finished?
                 && (forall g :: 0 <= g < n && !w.state.flights[g].Finished? ==> g == f && w'.state == w.state)
                 && ((forall g :: 0 <= g < n ==> w.state.flights[g].Finished?) ==>
                     f == n && w'.state.flights == w.state.flights + [Requested])
               case Answered(_, _) => false
  {
  }

  lemma {:induction false} RunConcat(w: World, a: seq<Event>, b: seq<Event>)
    ensures Run(w, a + b) == Run(Run(w, a), b)
    decreases a
  {
    if a == [] {
      assert a + b == b;
    } else {
      assert (a + b)[1..] == a[1..] + b;
      RunConcat(Next(w, a[0]), a[1..], b);
    }
  }

  /** In every run, a caller that is answered got the outcome of a flight that
      had not finished when it called, or that it started. */
  lemma AnswersAreNeverStale(before: seq<Event>, after: seq<Event>)
    ensures var w, end := Run(START, before), Run(START, before + ([Call] + after));
            var c := |w.callers|;
            && c < |end.callers|
            && (end.callers[c].Answered? ==>
                var f := end.callers[c].flight;
                && f < |end.state.flights| && end.state.flights[f] == Finished(end.callers[c].outcome)
                && (f < |w.state.flights| ==> !w.state.flights[f].Finished?))
  {
    var w := Run(START, before);
    RunKeepsSafe(START, before);
    CallJoinsTheLiveFlight(w);
    assert ([Call] + after)[1..] == after;
    RunConcat(START, before, [Call] + after);
    JoinerGetsItsFlight(Next(w, Call), after, |w.callers|);
  }

  // The two ways the outstanding request can settle.
  ghost predicate Settles(e: Event, f: nat) {
    (e.Succeed? || e.Fail?) && e.flight == f
  }

  function OutcomeOf(e: Event): Outcome
    requires e.Succeed? || e.Fail?
  {
    if e.Succeed? then Token(e.token) else Failure(e.error)
  }

  /** No one is left waiting: once the outstanding request settles and its
      finally runs, every waiting caller can be told its flight's outcome. If
      it failed, the cache is as before and the next call that the cache
      cannot serve starts a new request. */
  lemma EveryJoinerCanSettle(w: World, f: nat, settle: Event, c: nat)
    requires Safe(w) && w.state.inFlight == Some(f) && w.state.flights[f] == Requested && Settles(settle, f)
    requires c < |w.callers| && w.callers[c].Waiting?
    ensures var w' := Next(Next(w, settle), Finally(f));
            && w'.state.inFlight == None
            && Next(w', Deliver(c)).callers[c].Answered?
            && (w.callers[c].flight == f ==> Next(w', Deliver(c)).callers[c] == Answered(f, OutcomeOf(settle)))
            && (settle.Fail? ==> w'.state.cached == w.state.cached)
            && (settle.Fail? && (w.state.cached.None? || w.state.cached.value.expiresAt <= w.now + EXPIRY_MARGIN_MS)
                ==> Next(w', Call).state.flights == w'.state.flights + [Requested])
  {
    assert CallerOk(w, w.callers[c]);
  }

  /** A fresh token is served from the cache until five minutes before it
      expires, and from then on a call starts a new request. */
  lemma ServedUntilMargin(w: World, f: nat, token: string, expiresIn: int, ms: nat)
    requires Safe(w) && w.state.inFlight == Some(f) && w.state.flights[f] == Requested
    ensures var w' := Next(Next(Next(w, Succeed(f, token, expiresIn)), Finally(f)), Tick(ms));
            var called := Next(w', Call);
            if ms + 300_000 < expiresIn * 1000 then
              called.state == w'.state && called.callers[|w.callers|].FromCache? && called.callers[|w.callers|].token == token
            else
              called.state.flights == w'.state.flights + [Requested] && called.callers[|w.callers|] == Waiting(|w.state.flights|)
  {
  }
}
