/**
 The machine driven by a hook over the proxy signing source
 (packages/esign-core/src/signing/proxySource.ts, bridge.ts,
 packages/esign-react/src/useESignature.ts): acquisitions that settle late and
 in any order, restarts that carry an envelope id, page messages, timers.
 */
module SigningFlow {
  import opened Common
  import opened JsCollections
  import opened SigningMachine

  // ---- The bridge protocol ----

  // A page message after parsing: not a record with a string `event`, or that
  // event's name.
  datatype Message = Unreadable | Named(event: string)

  function InterpretBridgeEvent(message: Message): Option<SigningEvent> {
    match message
    case Unreadable => None
    case Named(event) =>
      if event == "signing_complete" then Some(Complete(None))
      else if event == "cancel" then Some(Cancel)
      else if event == "decline" then Some(Decline)
      else if event == "session_timeout" then Some(SessionExpired)
      else if event == "exception" then Some(EventError(Some("SIGNING_ERROR")))
      else None
  }

  // A session that pins no origin, or pins an empty one, accepts any sender.
  predicate IsAllowedOrigin(session: Option<Session>, origin: string) {
    session.None? || session.value.allowedOrigin.None? || session.value.allowedOrigin == Some("")
    || session.value.allowedOrigin == Some(origin)
  }

  // ---- The proxy source ----

  // An acquisition under way: a start, or the restart of a kept session.
  datatype Acquisition = Starting | Restarting(previous: Session)

  // What the backend's mutation answers: data, or an error code if there is one.
  datatype Reply = Reply(url: string, envelopeId: string) | NoData | Failure(code: Option<string>)

  // An absent or empty code gives way to the fallback.
  function CodeOr(code: Option<string>, fallback: string): Option<string> {
    if code.None? || code.value == "" then Some(fallback) else code
  }

  function Start(reply: Reply, allowedOrigin: Option<string>): Action {
    match reply
    case Reply(url, envelopeId) => Acquired(Session(url, Some(envelopeId), allowedOrigin))
    case NoData => AcquireFailed(Some("ENVELOPE_CREATION_FAILED"))
    case Failure(code) => AcquireFailed(CodeOr(code, "ENVELOPE_CREATION_FAILED"))
  }

  // An absent or empty envelope id cannot be restarted.
  function RestartFrom(previous: Session, reply: Reply, allowedOrigin: Option<string>): Action {
    if previous.envelopeId.None? || previous.envelopeId.value == "" then AcquireFailed(Some("SESSION_EXPIRED"))
    else match reply
      case Reply(url, _) => Acquired(Session(url, previous.envelopeId, allowedOrigin))
      case NoData => AcquireFailed(Some("RESTART_FAILED"))
      case Failure(code) => AcquireFailed(CodeOr(code, "RESTART_FAILED"))
  }

  // ---- The hook ----

  // The hook's refs and everything under way. `timers` says what each
  // success-screen timer ever started reports, `cleared` on which of them
  // clearTimeout was called, `fired` which fired, in order, and `completed`
  // what onComplete was then called with. `started` collects the ids start()
  // returned, `held` every session the machine ever held.
  datatype World = World(
    machine: MachineState,
    pending: seq<Acquisition>,
    mounted: bool,
    timers: seq<Option<string>>,
    successTimeout: Option<nat>,
    cleared: set<nat>,
    fired: seq<nat>,
    started: set<string>,
    held: seq<Session>,
    completed: seq<Option<string>>)

  const FRESH := World(INITIAL, [], true, [], None, {}, [], {}, [], [])

  datatype Input =
    | Sign(online: bool)
    | RestartPressed
    | RetryPressed
    | ConnectionChecked(online: bool)
    | Settles(index: nat, reply: Reply)
    | PageMessage(message: Message, origin: string)
    | TimerFires(timer: nat)
    | Unmounted
    | Mounted

  // A complete effect starts a timer; the ref forgets the one before it.
  function Apply(w: World, action: Action): World {
    var (machine, effects) := Transition(w.machine, action);
    var w' := w.(machine := machine, held := if action.Acquired? then w.held + [action.session] else w.held);
    if effects != [] && effects[0].CompleteEffect?
    then w'.(timers := w.timers + [effects[0].envelopeId], successTimeout := Some(|w.timers|))
    else w'
  }

  // An acquisition that settles after the host unmounted changes nothing.
  function Settle(w: World, index: nat, reply: Reply, allowedOrigin: Option<string>): World
    requires index < |w.pending|
  {
    var rest := w.pending[..index] + w.pending[index + 1..];
    match w.pending[index]
    case Starting =>
      var w' := w.(pending := rest, started := if reply.Reply? then w.started + {reply.envelopeId} else w.started);
      if w.mounted then Apply(w', Start(reply, allowedOrigin)) else w'
    case Restarting(previous) =>
      var w' := w.(pending := rest);
      if w.mounted then Apply(w', RestartFrom(previous, reply, allowedOrigin)) else w'
  }

  // A timer fires once, unless it is cleared before.
  predicate Live(w: World, timer: nat) {
    timer < |w.timers| && timer !in w.fired && timer !in w.cleared
  }

  function Fire(w: World, timer: nat): World {
    if Live(w, timer) then
      Apply(w.(fired := w.fired + [timer], completed := w.completed + [w.timers[timer]]), Settled)
    else w
  }

  // Unmounting clears the timer the ref holds.
  function Unmount(w: World): World {
    w.(mounted := false,
       cleared := if w.successTimeout.Some? then w.cleared + {w.successTimeout.value} else w.cleared)
  }

  // The window listener is attached while the host is mounted and signing.
  predicate Hears(w: World, origin: string) {
    w.mounted && w.machine.status == Signing && IsAllowedOrigin(w.machine.session, origin)
  }

  function Next(w: World, input: Input, allowedOrigin: Option<string>): World {
    match input
    case Sign(online) =>
      if !online then Apply(w, GoOffline)
      else var w' := Apply(w, Acquire); w'.(pending := w'.pending + [Starting])
    case RestartPressed =>
      (match w.machine.session
       case None => Apply(w, Retry)
       case Some(session) =>
         var w' := Apply(Apply(w, Restart), Acquire);
         w'.(pending := w'.pending + [Restarting(session)]))
    case RetryPressed => Apply(w, Retry)
    case ConnectionChecked(online) => if online then Apply(w, GoOnline) else w
    case Settles(index, reply) => if index < |w.pending| then Settle(w, index, reply, allowedOrigin) else w
    case PageMessage(message, origin) =>
      if !Hears(w, origin) then w
      else var event := InterpretBridgeEvent(message); if event.None? then w else Apply(w, Event(event.value))
    case TimerFires(timer) => Fire(w, timer)
    case Unmounted => Unmount(w)
    case Mounted => w.(mounted := true)
  }

  function Run(w: World, inputs: seq<Input>, allowedOrigin: Option<string>): World
    decreases inputs
  {
    if inputs == [] then w else Run(Next(w, inputs[0], allowedOrigin), inputs[1..], allowedOrigin)
  }

  // The hook over its mutable refs.
  class SigningHook {
    const allowedOrigin: Option<string>
    var state: MachineState
    var pending: seq<Acquisition>
    var mounted: bool
    var timers: seq<Option<string>>
    var successTimeout: Option<nat>
    var cleared: set<nat>
    var fired: seq<nat>
    var started: set<string>
    var held: seq<Session>
    var completed: seq<Option<string>>

    function Contents(): World
      reads this
    {
      World(state, pending, mounted, timers, successTimeout, cleared, fired, started, held, completed)
    }

    constructor (allowedOrigin: Option<string>)
      ensures Contents() == FRESH && this.allowedOrigin == allowedOrigin
    {
      this.allowedOrigin := allowedOrigin;
      state, pending, mounted, timers, successTimeout := INITIAL, [], true, [], None;
      cleared, fired, started, held, completed := {}, [], {}, [], [];
    }

    method Perform(action: Action)
      modifies this
      ensures Contents() == Apply(old(Contents()), action)
    {
      var (next, effects) := Transition(state, action);
      state := next;
      if action.Acquired? {
        held := held + [action.session];
      }
      if effects != [] && effects[0].CompleteEffect? {
        successTimeout := Some(|timers|);
        timers := timers + [effects[0].envelopeId];
      }
    }

    method BeginSigning(acquisition: Acquisition)
      modifies this
      ensures Contents() == Apply(old(Contents()), Acquire).(pending := old(pending) + [acquisition])
    {
      Perform(Acquire);
      pending := pending + [acquisition];
    }

    method OnSign(online: bool)
      modifies this
      ensures Contents() == Next(old(Contents()), Sign(online), allowedOrigin)
    {
      if !online {
        Perform(GoOffline);
        return;
      }
      BeginSigning(Starting);
    }

    method OnRestart()
      modifies this
      ensures Contents() == Next(old(Contents()), RestartPressed, allowedOrigin)
    {
      var session := state.session;
      if session.None? {
        Perform(Retry);
        return;
      }
      Perform(Restart);
      BeginSigning(Restarting(session.value));
    }

    method OnSettled(index: nat, reply: Reply)
      modifies this
      ensures Contents() == Next(old(Contents()), Settles(index, reply), allowedOrigin)
    {
      if index < |pending| {
        var acquisition := pending[index];
        pending := pending[..index] + pending[index + 1..];
        var outcome;
        match acquisition {
          case Starting =>
            if reply.Reply? {
              started := started + {reply.envelopeId};
            }
            outcome := Start(reply, allowedOrigin);
          case Restarting(previous) =>
            outcome := RestartFrom(previous, reply, allowedOrigin);
        }
        if mounted {
          Perform(outcome);
        }
      }
    }

    method OnMessage(message: Message, origin: string)
      modifies this
      ensures Contents() == Next(old(Contents()), PageMessage(message, origin), allowedOrigin)
    {
      if mounted && state.status == Signing && IsAllowedOrigin(state.session, origin) {
        var event := InterpretBridgeEvent(message);
        if event.Some? {
          Perform(Event(event.value));
        }
      }
    }

    method OnTimer(timer: nat)
      modifies this
      ensures Contents() == Next(old(Contents()), TimerFires(timer), allowedOrigin)
    {
      if timer < |timers| && timer !in fired && timer !in cleared {
        fired := fired + [timer];
        completed := completed + [timers[timer]];
        Perform(Settled);
      }
    }

    method OnUnmount()
      modifies this
      ensures Contents() == Next(old(Contents()), Unmounted, allowedOrigin)
    {
      mounted := false;
      if successTimeout.Some? {
        cleared := cleared + {successTimeout.value};
      }
    }

    // StrictMode mounts, runs the cleanup and mounts again.
    method OnMount()
      modifies this
      ensures Contents() == Next(old(Contents()), Mounted, allowedOrigin)
    {
      mounted := true;
    }
  }

  // ---- Where every envelope id comes from ----

  ghost predicate FromStart(w: World, session: Session) {
    session.envelopeId.Some? && session.envelopeId.value in w.started
  }

  function LastHeld(w: World): Option<Session> {
    if w.held == [] then None else Some(w.held[|w.held| - 1])
  }

  ghost predicate Traced(w: World) {
    && Consistent(w.machine, LastHeld(w))
    && (forall s :: s in w.held ==> FromStart(w, s))
    && (forall p :: p in w.pending && p.Restarting? ==> FromStart(w, p.previous))
    && (forall id :: id in w.timers && id.Some? ==> id.value in w.started)
    && (forall id :: id in w.completed && id.Some? ==> id.value in w.started)
  }

  lemma HeldIsFromStart(w: World)
    requires Traced(w)
    ensures w.machine.session.Some? ==> FromStart(w, w.machine.session.value)
  {
    if w.machine.session.Some? {
      assert w.machine.session == LastHeld(w);
      assert w.held[|w.held| - 1] in w.held;
    }
  }

  // Any action the hook applies: an acquired session must come from a start,
  // and a completion must not name an id of its own.
  lemma ApplyKeepsTraced(w: World, action: Action)
    requires Traced(w)
    requires action.Acquired? ==> FromStart(w, action.session)
    requires action.Event? && action.event.Complete? ==> action.event.envelopeId == None
    ensures Traced(Apply(w, action))
  {
    HeldIsFromStart(w);
    match action
    case Event(event) =>
      match event {
        case Complete(_) =>
        case Cancel =>
        case Decline =>
        case SessionExpired =>
        case EventError(_) =>
      }
    case _ =>
  }

  lemma SettleKeepsTraced(w: World, index: nat, reply: Reply, allowedOrigin: Option<string>)
    requires Traced(w) && index < |w.pending|
    ensures Traced(Settle(w, index, reply, allowedOrigin))
  {
    var rest := w.pending[..index] + w.pending[index + 1..];
    assert forall p :: p in rest ==> p in w.pending;
    match w.pending[index]
    case Starting =>
      var w' := w.(pending := rest, started := if reply.Reply? then w.started + {reply.envelopeId} else w.started);
      assert Traced(w');
      if w.mounted {
        ApplyKeepsTraced(w', Start(reply, allowedOrigin));
      }
    case Restarting(previous) =>
      assert w.pending[index] in w.pending;
      var w' := w.(pending := rest);
      assert Traced(w');
      if w.mounted {
        ApplyKeepsTraced(w', RestartFrom(previous, reply, allowedOrigin));
      }
  }

  lemma FireKeepsTraced(w: World, timer: nat)
    requires Traced(w)
    ensures Traced(Fire(w, timer))
  {
    if Live(w, timer) {
      assert w.timers[timer] in w.timers;
      ApplyKeepsTraced(w.(fired := w.fired + [timer], completed := w.completed + [w.timers[timer]]), Settled);
    }
  }

  lemma RestartPressedKeepsTraced(w: World, allowedOrigin: Option<string>)
    requires Traced(w)
    ensures Traced(Next(w, RestartPressed, allowedOrigin))
  {
    if w.machine.session.None? {
      ApplyKeepsTraced(w, Retry);
    } else {
      HeldIsFromStart(w);
      ApplyKeepsTraced(w, Restart);
      ApplyKeepsTraced(Apply(w, Restart), Acquire);
    }
  }

  lemma NextKeepsTraced(w: World, input: Input, allowedOrigin: Option<string>)
    requires Traced(w)
    ensures Traced(Next(w, input, allowedOrigin))
  {
    match input
    case Sign(online) => ApplyKeepsTraced(w, if online then Acquire else GoOffline);
    case RestartPressed => RestartPressedKeepsTraced(w, allowedOrigin);
    case RetryPressed => ApplyKeepsTraced(w, Retry);
    case ConnectionChecked(_) => ApplyKeepsTraced(w, GoOnline);
    case Settles(index, reply) =>
      if index < |w.pending| {
        SettleKeepsTraced(w, index, reply, allowedOrigin);
      }
    case PageMessage(message, _) =>
      var event := InterpretBridgeEvent(message);
      if event.Some? {
        ApplyKeepsTraced(w, Event(event.value));
      }
    case TimerFires(timer) => FireKeepsTraced(w, timer);
    case Unmounted =>
    case Mounted =>
  }

  /** In every run of the hook over the proxy source: a shown url belongs to
      the held session, which is the last one acquired; every session ever held
      carries an envelope id that some start() returned, so restarts introduce
      none; and onComplete is called with no other id. */
  lemma {:induction false} EveryIdComesFromAStart(w: World, inputs: seq<Input>, allowedOrigin: Option<string>)
    requires Traced(w)
    ensures Traced(Run(w, inputs, allowedOrigin))
    decreases inputs
  {
    if inputs != [] {
      NextKeepsTraced(w, inputs[0], allowedOrigin);
      EveryIdComesFromAStart(Next(w, inputs[0], allowedOrigin), inputs[1..], allowedOrigin);
    }
  }

  // Whether this input is the page saying the signing is complete, while the
  // hook listens and from an origin the session allows.
  ghost predicate Completes(w: World, input: Input) {
    input.PageMessage? && input.message == Named("signing_complete") && Hears(w, input.origin)
  }

  function HeldId(w: World): Option<string> {
    if w.machine.session.Some? then w.machine.session.value.envelopeId else None
  }

  lemma ApplyCompletes(w: World, action: Action)
    ensures var completes, w' := action.Event? && action.event.Complete?, Apply(w, action);
            && (completes && action.event.envelopeId == None ==>
                w'.timers == w.timers + [HeldId(w)] && w'.successTimeout == Some(|w.timers|))
            && (!completes ==> w'.timers == w.timers && w'.successTimeout == w.successTimeout)
            && w'.completed == w.completed && w'.fired == w.fired && w'.cleared == w.cleared
  {
    match action
    case Event(event) =>
      match event {
        case Complete(_) =>
        case Cancel =>
        case Decline =>
        case SessionExpired =>
        case EventError(_) =>
      }
    case _ =>
  }

  lemma OnlyOneNameCompletes(message: Message)
    ensures InterpretBridgeEvent(message) == Some(Complete(None)) <==> message == Named("signing_complete")
    ensures InterpretBridgeEvent(message).Some? && InterpretBridgeEvent(message).value.Complete?
            ==> message == Named("signing_complete")
  {
  }

  /** A success timer is started exactly when an allowed page message says the
      signing is complete, and it will report the held session's id. */
  lemma CompletionReportsHeldSession(w: World, input: Input, allowedOrigin: Option<string>)
    requires !input.TimerFires? && !input.Unmounted?
    ensures var w' := Next(w, input, allowedOrigin);
            && w'.timers == (if Completes(w, input) then w.timers + [HeldId(w)] else w.timers)
            && w'.successTimeout == (if Completes(w, input) then Some(|w.timers|) else w.successTimeout)
            && w'.completed == w.completed && w'.fired == w.fired && w'.cleared == w.cleared
  {
    match input
    case Sign(online) => ApplyCompletes(w, if online then Acquire else GoOffline);
    case RestartPressed =>
      ApplyCompletes(w, Retry);
      ApplyCompletes(w, Restart);
      ApplyCompletes(Apply(w, Restart), Acquire);
    case RetryPressed => ApplyCompletes(w, Retry);
    case ConnectionChecked(_) => ApplyCompletes(w, GoOnline);
    case Settles(index, reply) =>
    case PageMessage(message, _) =>
      OnlyOneNameCompletes(message);
      var event := InterpretBridgeEvent(message);
      if event.Some? {
        ApplyCompletes(w, Event(event.value));
      }
    case Mounted =>
  }

  // ---- Timers ----

  // The ref holds the last timer started; each call of onComplete was one
  // timer's, no timer made two, and each reported its own id.
  ghost predicate TimersOk(w: World) {
    && w.successTimeout == (if w.timers == [] then None else Some(|w.timers| - 1))
    && |w.completed| == |w.fired|
    && (forall j :: 0 <= j < |w.fired| ==> w.fired[j] < |w.timers| && w.completed[j] == w.timers[w.fired[j]])
    && (forall i, j :: 0 <= i < j < |w.fired| ==> w.fired[i] != w.fired[j])
  }

  lemma NextKeepsTimersOk(w: World, input: Input, allowedOrigin: Option<string>)
    requires TimersOk(w)
    ensures TimersOk(Next(w, input, allowedOrigin))
  {
    if input.TimerFires? {
      if Live(w, input.timer) {
        ApplyCompletes(w.(fired := w.fired + [input.timer], completed := w.completed + [w.timers[input.timer]]), Settled);
      }
    } else if !input.Unmounted? {
      CompletionReportsHeldSession(w, input, allowedOrigin);
    }
  }

  // The id held at each completion of a run.
  ghost function Completions(w: World, inputs: seq<Input>, allowedOrigin: Option<string>): seq<Option<string>>
    decreases inputs
  {
    if inputs == [] then []
    else
      (if Completes(w, inputs[0]) then [HeldId(w)] else [])
      + Completions(Next(w, inputs[0], allowedOrigin), inputs[1..], allowedOrigin)
  }

  lemma NextStartsCompletions(w: World, input: Input, allowedOrigin: Option<string>)
    ensures var w' := Next(w, input, allowedOrigin);
            && w'.timers == w.timers + (if Completes(w, input) then [HeldId(w)] else [])
            && (!input.Unmounted? ==> w'.cleared == w.cleared)
  {
    if input.TimerFires? {
      if Live(w, input.timer) {
        ApplyCompletes(w.(fired := w.fired + [input.timer], completed := w.completed + [w.timers[input.timer]]), Settled);
      }
    } else if !input.Unmounted? {
      CompletionReportsHeldSession(w, input, allowedOrigin);
    }
  }

  lemma {:induction false} RunStartsCompletions(w: World, inputs: seq<Input>, allowedOrigin: Option<string>)
    ensures Run(w, inputs, allowedOrigin).timers == w.timers + Completions(w, inputs, allowedOrigin)
    ensures Unmounted !in inputs ==> Run(w, inputs, allowedOrigin).cleared == w.cleared
    decreases inputs
  {
    if inputs != [] {
      var w' := Next(w, inputs[0], allowedOrigin);
      NextStartsCompletions(w, inputs[0], allowedOrigin);
      RunStartsCompletions(w', inputs[1..], allowedOrigin);
      Associative(w.timers, if Completes(w, inputs[0]) then [HeldId(w)] else [], Completions(w', inputs[1..], allowedOrigin));
    }
  }

  lemma {:induction false} RunKeepsTimersOk(w: World, inputs: seq<Input>, allowedOrigin: Option<string>)
    requires TimersOk(w)
    ensures TimersOk(Run(w, inputs, allowedOrigin))
    decreases inputs
  {
    if inputs != [] {
      NextKeepsTimersOk(w, inputs[0], allowedOrigin);
      RunKeepsTimersOk(Next(w, inputs[0], allowedOrigin), inputs[1..], allowedOrigin);
    }
  }

  /** In every run each call of onComplete reports a completion of its own, with
      the id held when it arrived: no completion is reported twice. */
  lemma EachCompletionReportsOnce(inputs: seq<Input>, allowedOrigin: Option<string>)
    ensures var w, ids := Run(FRESH, inputs, allowedOrigin), Completions(FRESH, inputs, allowedOrigin);
            && |w.completed| == |w.fired|
            && (forall j :: 0 <= j < |w.fired| ==> w.fired[j] < |ids| && w.completed[j] == ids[w.fired[j]])
            && (forall i, j :: 0 <= i < j < |w.fired| ==> w.fired[i] != w.fired[j])
  {
    RunStartsCompletions(FRESH, inputs, allowedOrigin);
    RunKeepsTimersOk(FRESH, inputs, allowedOrigin);
  }

  /** Once the host unmounts nothing more is reported, exactly when every
      completion but the last was reported by then or cleared by an earlier
      unmount: the ref knows only the last timer. */
  lemma UnmountSilencesTheLastTimer(inputs: seq<Input>, allowedOrigin: Option<string>)
    ensures var w := Run(FRESH, inputs, allowedOrigin);
            && ((forall timer: nat :: Fire(Unmount(w), timer).completed == w.completed)
                <==> forall i :: 0 <= i < |Completions(FRESH, inputs, allowedOrigin)| - 1 ==> i in w.fired || i in w.cleared)
            && (Unmounted !in inputs ==> w.cleared == {})
  {
    RunStartsCompletions(FRESH, inputs, allowedOrigin);
    RunKeepsTimersOk(FRESH, inputs, allowedOrigin);
    FiresAfterUnmount(Run(FRESH, inputs, allowedOrigin));
  }

  lemma FiresAfterUnmount(w: World)
    requires TimersOk(w)
    ensures (forall timer: nat :: Fire(Unmount(w), timer).completed == w.completed)
            <==> forall i :: 0 <= i < |w.timers| - 1 ==> i in w.fired || i in w.cleared
  {
    var u := Unmount(w);
    forall timer: nat ensures Fire(u, timer).completed != w.completed <==> Live(u, timer) {
      if Live(u, timer) {
        ApplyCompletes(u.(fired := u.fired + [timer], completed := u.completed + [u.timers[timer]]), Settled);
        assert |Fire(u, timer).completed| > |w.completed|;
      }
    }
    forall i | 0 <= i < |w.timers| - 1 ensures Live(u, i) <==> i !in w.fired && i !in w.cleared {
    }
    assert forall i: nat :: i >= |w.timers| - 1 ==> !Live(u, i);
  }

  // The user signs, the backend answers, the page completes.
  function SignsAndCompletes(url: string, id: string, origin: string): seq<Input> {
    [Sign(true), Settles(0, Reply(url, id)), PageMessage(Named("signing_complete"), origin)]
  }

  lemma {:induction false} RunConcat(w: World, a: seq<Input>, b: seq<Input>, allowedOrigin: Option<string>)
    ensures Run(w, a + b, allowedOrigin) == Run(Run(w, a, allowedOrigin), b, allowedOrigin)
    decreases a
  {
    if a == [] {
      assert a + b == b;
    } else {
      assert (a + b)[1..] == a[1..] + b;
      RunConcat(Next(w, a[0], allowedOrigin), a[1..], b, allowedOrigin);
    }
  }

  lemma OneSigning(w: World, url: string, id: string, origin: string, allowedOrigin: Option<string>)
    requires w.mounted && w.pending == [] && IsAllowedOrigin(Some(Session(url, Some(id), allowedOrigin)), origin)
    ensures var w' := Run(w, SignsAndCompletes(url, id, origin), allowedOrigin);
            && w'.mounted && w'.pending == [] && w'.timers == w.timers + [Some(id)] && w'.successTimeout == Some(|w.timers|)
            && w'.fired == w.fired && w'.cleared == w.cleared && w'.completed == w.completed
  {
    var a, b, c := Sign(true), Settles(0, Reply(url, id)), PageMessage(Named("signing_complete"), origin);
    var w1 := Next(w, a, allowedOrigin);
    var w2 := Next(w1, b, allowedOrigin);
    assert w1.pending == [Starting] && w2.pending == [];
    assert w2.machine.status == Signing && w2.machine.session == Some(Session(url, Some(id), allowedOrigin));
    CompletionReportsHeldSession(w, a, allowedOrigin);
    CompletionReportsHeldSession(w1, b, allowedOrigin);
    CompletionReportsHeldSession(w2, c, allowedOrigin);
    OnlyOneNameCompletes(c.message);
    assert [a, b, c][1..] == [b, c] && [b, c][1..] == [c] && [c][1..] == [];
    assert Run(w, [a, b, c], allowedOrigin) == Run(w1, [b, c], allowedOrigin) == Run(w2, [c], allowedOrigin);
    assert Run(w2, [c], allowedOrigin) == Next(w2, c, allowedOrigin);
  }

  /** Signing twice before the first success timer fires is enough for
      onComplete to be called, with the first id, after the host unmounted. */
  lemma EarlierTimerOutlivesUnmount(
    url1: string, id1: string, url2: string, id2: string, origin: string, allowedOrigin: Option<string>)
    requires IsAllowedOrigin(Some(Session(url1, Some(id1), allowedOrigin)), origin)
    ensures var inputs := SignsAndCompletes(url1, id1, origin) + SignsAndCompletes(url2, id2, origin);
            var unmounted := Run(FRESH, inputs + [Unmounted], allowedOrigin);
            && !unmounted.mounted && unmounted.completed == []
            && Next(unmounted, TimerFires(0), allowedOrigin).completed == [Some(id1)]
  {
    var first, second := SignsAndCompletes(url1, id1, origin), SignsAndCompletes(url2, id2, origin);
    var w1 := Run(FRESH, first, allowedOrigin);
    OneSigning(FRESH, url1, id1, origin, allowedOrigin);
    OneSigning(w1, url2, id2, origin, allowedOrigin);
    RunConcat(FRESH, first, second, allowedOrigin);
    RunConcat(FRESH, first + second, [Unmounted], allowedOrigin);
    var w2 := Run(w1, second, allowedOrigin);
    assert w2.timers == [Some(id1), Some(id2)];
    assert [Unmounted][1..] == [] && Run(w2, [Unmounted], allowedOrigin) == Unmount(w2);
    var u := Unmount(w2);
    ApplyCompletes(u.(fired := [0], completed := [Some(id1)]), Settled);
  }

  // A session that is being signed has not completed yet.
  ghost predicate Unspent(w: World) {
    |w.timers| + (if w.machine.status == Signing then 1 else 0) <= |w.held|
  }

  lemma ApplyKeepsUnspent(w: World, action: Action)
    requires Unspent(w)
    requires action.Event? ==> w.machine.status == Signing
    ensures Unspent(Apply(w, action))
  {
    match action
    case Event(event) =>
      match event {
        case Complete(_) =>
        case Cancel =>
        case Decline =>
        case SessionExpired =>
        case EventError(_) =>
      }
    case _ =>
  }

  lemma NextKeepsUnspent(w: World, input: Input, allowedOrigin: Option<string>)
    requires Unspent(w)
    ensures Unspent(Next(w, input, allowedOrigin))
  {
    match input
    case Sign(online) => ApplyKeepsUnspent(w, if online then Acquire else GoOffline);
    case RestartPressed =>
      ApplyKeepsUnspent(w, Retry);
      ApplyKeepsUnspent(w, Restart);
      ApplyKeepsUnspent(Apply(w, Restart), Acquire);
    case RetryPressed => ApplyKeepsUnspent(w, Retry);
    case ConnectionChecked(_) => ApplyKeepsUnspent(w, GoOnline);
    case Settles(index, reply) =>
    case PageMessage(message, origin) =>
      var event := InterpretBridgeEvent(message);
      if Hears(w, origin) && event.Some? {
        ApplyKeepsUnspent(w, Event(event.value));
      }
    case TimerFires(timer) =>
      if Live(w, timer) {
        ApplyKeepsUnspent(w.(fired := w.fired + [timer], completed := w.completed + [w.timers[timer]]), Settled);
      }
    case Unmounted =>
    case Mounted =>
  }

  lemma {:induction false} RunKeepsUnspent(w: World, inputs: seq<Input>, allowedOrigin: Option<string>)
    requires Unspent(w)
    ensures Unspent(Run(w, inputs, allowedOrigin))
    decreases inputs
  {
    if inputs != [] {
      NextKeepsUnspent(w, inputs[0], allowedOrigin);
      RunKeepsUnspent(Next(w, inputs[0], allowedOrigin), inputs[1..], allowedOrigin);
    }
  }

  /** No session completes twice: in every run there are at most as many
      completions, and so calls of onComplete, as sessions were acquired. */
  lemma NoSessionCompletesTwice(inputs: seq<Input>, allowedOrigin: Option<string>)
    ensures var w := Run(FRESH, inputs, allowedOrigin);
            |Completions(FRESH, inputs, allowedOrigin)| <= |w.held|
    ensures Run(FRESH, inputs, allowedOrigin).machine.status == Signing ==>
              |Completions(FRESH, inputs, allowedOrigin)| < |Run(FRESH, inputs, allowedOrigin).held|
  {
    RunKeepsUnspent(FRESH, inputs, allowedOrigin);
    RunStartsCompletions(FRESH, inputs, allowedOrigin);
  }

  // ---- What the user and the backend can bring about ----

  ghost predicate ShowsError(w: World, code: string, session: Option<Session>) {
    w.machine == MachineState(Failed, Some(SigningError(code)), None, session)
  }

  /** What each button leads to: a start or a restart is under way and loading,
      offline stays without a request, and retry begins anew. */
  lemma ButtonsLead(w: World, allowedOrigin: Option<string>)
    ensures Next(w, Sign(false), allowedOrigin) == w.(machine := w.machine.(status := Offline))
    ensures Next(w, Sign(true), allowedOrigin)
            == w.(machine := w.machine.(status := Loading), pending := w.pending + [Starting])
    ensures Next(w, ConnectionChecked(true), allowedOrigin) == w.(machine := w.machine.(status := Idle))
    ensures Next(w, ConnectionChecked(false), allowedOrigin) == w
    ensures Next(w, RetryPressed, allowedOrigin) == w.(machine := INITIAL)
    ensures Next(w, RestartPressed, allowedOrigin)
            == if w.machine.session.None? then w.(machine := INITIAL)
               else w.(machine := w.machine.(status := Loading, error := None),
                       pending := w.pending + [Restarting(w.machine.session.value)])
  {
  }

  /** What a settled acquisition leads to while the host is mounted: signing at
      the backend's url, or the error of the answer with the held session kept.
      A start takes the backend's id, a restart keeps the old one. */
  lemma AcquisitionsLead(w: World, index: nat, allowedOrigin: Option<string>, url: string, id: string, code: string)
    requires w.mounted && index < |w.pending|
    ensures var p := w.pending[index];
            var fallback := if p.Starting? then "ENVELOPE_CREATION_FAILED" else "RESTART_FAILED";
            var replied := Next(w, Settles(index, Reply(url, id)), allowedOrigin);
            && replied.pending == w.pending[..index] + w.pending[index + 1..]
            && (if p.Restarting? && (p.previous.envelopeId.None? || p.previous.envelopeId == Some("")) then
                  && ShowsError(replied, "SESSION_EXPIRED", w.machine.session)
                  && ShowsError(Next(w, Settles(index, NoData), allowedOrigin), "SESSION_EXPIRED", w.machine.session)
                  && ShowsError(Next(w, Settles(index, Failure(Some(code))), allowedOrigin), "SESSION_EXPIRED", w.machine.session)
                else
                  && replied.machine == w.machine.(
                       status := Signing, signingUrl := Some(url),
                       session := Some(Session(url, if p.Starting? then Some(id) else p.previous.envelopeId, allowedOrigin)))
                  && ShowsError(Next(w, Settles(index, NoData), allowedOrigin), fallback, w.machine.session)
                  && ShowsError(Next(w, Settles(index, Failure(None)), allowedOrigin), fallback, w.machine.session)
                  && ShowsError(Next(w, Settles(index, Failure(Some(code))), allowedOrigin),
                                if code == "" then fallback else code, w.machine.session))
  {
  }

  /** An acquisition that settles while the host is unmounted is only recorded;
      mounting again makes the hook listen and take results as before. */
  lemma LateResultsAreDropped(w: World, index: nat, reply: Reply, allowedOrigin: Option<string>)
    requires index < |w.pending|
    ensures !w.mounted ==>
              var w' := Next(w, Settles(index, reply), allowedOrigin);
              && w' == w.(pending := w'.pending, started := w'.started)
              && w'.pending == w.pending[..index] + w.pending[index + 1..]
    ensures Next(w, Mounted, allowedOrigin) == w.(mounted := true)
    ensures var w' := Next(w, Unmounted, allowedOrigin);
            w' == w.(mounted := false, cleared := w'.cleared)
  {
  }

  /** A timer that fires reports its completion and takes the url off the
      screen; nothing else changes. */
  lemma FiringReports(w: World, timer: nat, allowedOrigin: Option<string>)
    ensures Next(w, TimerFires(timer), allowedOrigin)
            == if timer < |w.timers| && timer !in w.fired && timer !in w.cleared
               then w.(machine := w.machine.(signingUrl := None), fired := w.fired + [timer],
                       completed := w.completed + [w.timers[timer]])
               else w
  {
  }

  // ---- Who may speak ----

  /** A message from an origin other than the one the session is pinned to
      changes nothing, whatever it says; nor does any message while the host is
      unmounted or not signing. */
  lemma ForeignMessagesAreIgnored(w: World, message: Message, origin: string, allowedOrigin: Option<string>)
    requires || !w.mounted || w.machine.status != Signing
             || (w.machine.session.Some? && w.machine.session.value.allowedOrigin.Some?
                 && w.machine.session.value.allowedOrigin.value !in {"", origin})
    ensures Next(w, PageMessage(message, origin), allowedOrigin) == w
  {
  }

  /** And with no session, no pin, an empty pin or the pinned origin every
      message of the protocol is taken by a mounted, signing hook: a completion
      starts the success timer, a timeout keeps the session, a cancel or
      a decline ends in idle, an exception drops the session; any other name
      and anything unreadable changes nothing. */
  lemma PageMessagesAreTaken(w: World, name: string, origin: string, allowedOrigin: Option<string>)
    requires w.mounted && w.machine.status == Signing
    requires w.machine.session.Some? && w.machine.session.value.allowedOrigin.Some? ==>
               w.machine.session.value.allowedOrigin.value in {"", origin}
    ensures Next(w, PageMessage(Unreadable, origin), allowedOrigin) == w
    ensures var w' := Next(w, PageMessage(Named(name), origin), allowedOrigin);
            && (name == "signing_complete" ==>
                w'.machine == w.machine.(status := Success) && w'.timers == w.timers + [HeldId(w)])
            && (name == "session_timeout" ==>
                w'.machine == MachineState(Failed, Some(SigningError("SESSION_EXPIRED")), None, w.machine.session))
            && (name == "exception" ==>
                w'.machine == MachineState(Failed, Some(SigningError("SIGNING_ERROR")), None, None))
            && (name == "cancel" || name == "decline" ==>
                w'.machine == w.machine.(status := Idle, signingUrl := None, session := None))
            && (name !in {"signing_complete", "session_timeout", "exception", "cancel", "decline"} ==> w' == w)
  {
    NamesDiffer();
  }

  // The names of the protocol, told apart by their first or second character.
  lemma NamesDiffer()
    ensures "signing_complete"[0] == 's' && "signing_complete"[1] == 'i'
    ensures "session_timeout"[0] == 's' && "session_timeout"[1] == 'e'
    ensures "cancel"[0] == 'c' && "decline"[0] == 'd' && "exception"[0] == 'e'
  {
  }

  // ---- Restarts ----

  /** Settling a restart never adds an id: the session it acquires carries the
      id of the session that was kept. */
  lemma RestartKeepsItsEnvelope(w: World, index: nat, reply: Reply, allowedOrigin: Option<string>)
    requires index < |w.pending| && w.pending[index].Restarting?
    ensures var w' := Settle(w, index, reply, allowedOrigin);
            && w'.started == w.started
            && (w'.held == w.held
                || (|w'.held| == |w.held| + 1 && w'.held[..|w.held|] == w.held
                    && w'.held[|w.held|].envelopeId == w.pending[index].previous.envelopeId))
  {
    var w' := Settle(w, index, reply, allowedOrigin);
    if w'.held != w.held {
      assert w'.held[..|w.held|] == w.held;
    }
  }

  /** An expired session resumes: the page reports the expiry, the user presses
      restart, the backend answers with a url; then the flow is signing again
      at that url, for the same envelope, with no error left. */
  lemma ExpiredSessionResumes(w: World, origin: string, url: string, ignored: string, allowedOrigin: Option<string>)
    requires Hears(w, origin) && w.machine.session.Some?
    requires w.machine.session.value.envelopeId.Some? && w.machine.session.value.envelopeId.value != ""
    ensures var expired := Next(w, PageMessage(Named("session_timeout"), origin), allowedOrigin);
            var restarting := Next(expired, RestartPressed, allowedOrigin);
            var resumed := Next(restarting, Settles(|w.pending|, Reply(url, ignored)), allowedOrigin);
            && expired.machine.error == Some(SigningError("SESSION_EXPIRED")) && expired.machine.signingUrl == None
            && resumed.machine == MachineState(
                 Signing, None, Some(url), Some(Session(url, w.machine.session.value.envelopeId, allowedOrigin)))
            && resumed.pending == w.pending && resumed.started == w.started
  {
    var timeout := "session_timeout";
    assert timeout[1] == 'e' && "signing_complete"[1] == 'i' && "cancel"[1] == 'a' && timeout[0] != "decline"[0];
    var session := w.machine.session.value;
    var expired := Next(w, PageMessage(Named(timeout), origin), allowedOrigin);
    assert expired == Apply(w, Event(SessionExpired));
    var restarting := Next(expired, RestartPressed, allowedOrigin);
    assert restarting.pending == w.pending + [Restarting(session)];
    assert restarting.machine == MachineState(Loading, None, None, Some(session));
    assert (w.pending + [Restarting(session)])[..|w.pending|] + [] == w.pending;
  }
}
