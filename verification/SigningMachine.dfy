/**
 The signing state machine (packages/esign-core/src/signing/machine.ts). One
 transition function without status guards: any action may arrive in any
 status.
 */
module SigningMachine {
  import opened Common

  datatype Status = Idle | Loading | Signing | Success | Failed | Offline

  datatype Session = Session(url: string, envelopeId: Option<string>, allowedOrigin: Option<string>)

  // The error shown; its message text is not modelled.
  datatype SigningError = SigningError(code: string)

  datatype MachineState = MachineState(
    status: Status, error: Option<SigningError>, signingUrl: Option<string>, session: Option<Session>)

  datatype SigningEvent =
    | Complete(envelopeId: Option<string>)
    | Cancel
    | Decline
    | SessionExpired
    | EventError(code: Option<string>)

  datatype Action =
    | Acquire
    | Acquired(session: Session)
    | AcquireFailed(code: Option<string>)
    | Event(event: SigningEvent)
    | Settled
    | GoOffline
    | GoOnline
    | Retry
    | Restart

  datatype Effect =
    | CompleteEffect(envelopeId: Option<string>)
    | ErrorEffect(error: SigningError)
    | CancelEffect

  const INITIAL := MachineState(Idle, None, None, None)

  function Fail(s: MachineState, code: string, session: Option<Session>): (MachineState, seq<Effect>) {
    (MachineState(Failed, Some(SigningError(code)), None, session), [ErrorEffect(SigningError(code))])
  }

  function OnEvent(s: MachineState, event: SigningEvent): (MachineState, seq<Effect>) {
    match event
    case Complete(envelopeId) =>
      (s.(status := Success),
       [CompleteEffect(
          if envelopeId.Some? then envelopeId
          else if s.session.Some? then s.session.value.envelopeId else None)])
    case Cancel => (s.(status := Idle, signingUrl := None, session := None), [CancelEffect])
    case Decline => (s.(status := Idle, signingUrl := None, session := None), [CancelEffect])
    case SessionExpired => Fail(s, "SESSION_EXPIRED", s.session)
    case EventError(code) => Fail(s, if code.Some? then code.value else "SIGNING_ERROR", None)
  }

  function Transition(s: MachineState, action: Action): (MachineState, seq<Effect>) {
    match action
    case Acquire => (s.(status := Loading), [])
    case Acquired(session) => (s.(status := Signing, signingUrl := Some(session.url), session := Some(session)), [])
    case AcquireFailed(code) => Fail(s, if code.Some? then code.value else "UNKNOWN_ERROR", s.session)
    case Event(event) => OnEvent(s, event)
    case Settled => (s.(signingUrl := None), [])
    case GoOffline => (s.(status := Offline), [])
    case GoOnline => (s.(status := Idle), [])
    case Retry => (MachineState(Idle, None, None, None), [])
    case Restart => (s.(error := None), [])
  }

  function Run(s: MachineState, actions: seq<Action>): MachineState
    decreases actions
  {
    if actions == [] then s else Run(Transition(s, actions[0]).0, actions[1..])
  }

  // The session of the last `acquired` action, or `held` if there is none.
  function LastAcquired(actions: seq<Action>, held: Option<Session>): Option<Session> {
    if actions == [] then held
    else LastAcquired(actions[1..], if actions[0].Acquired? then Some(actions[0].session) else held)
  }

  // The url shown is the held session's, and no session but the last acquired is held.
  ghost predicate Consistent(s: MachineState, last: Option<Session>) {
    && (s.signingUrl.Some? ==> s.session.Some? && s.session.value.url == s.signingUrl.value)
    && (s.session.Some? ==> s.session == last)
  }

  lemma {:induction false} RunIsConsistent(s: MachineState, actions: seq<Action>, last: Option<Session>)
    requires Consistent(s, last)
    ensures Consistent(Run(s, actions), LastAcquired(actions, last))
    decreases actions
  {
    if actions != [] {
      RunIsConsistent(
        Transition(s, actions[0]).0, actions[1..],
        if actions[0].Acquired? then Some(actions[0].session) else last);
    }
  }

  /** For every order of actions from the start: a url is shown only together
      with the held session it belongs to, and the held session is the last one
      acquired. */
  lemma UrlBelongsToLastSession(actions: seq<Action>)
    ensures Consistent(Run(INITIAL, actions), LastAcquired(actions, None))
  {
    RunIsConsistent(INITIAL, actions, None);
  }

  // ---- The state as a function of the history ----

  // Whether an action takes the url off the screen, drops the session, or
  // ends in an error and with which code.
  predicate HidesUrl(a: Action) {
    a.AcquireFailed? || a.Settled? || a.Retry? || (a.Event? && !a.event.Complete?)
  }

  predicate DropsSession(a: Action) {
    a.Retry? || (a.Event? && (a.event.Cancel? || a.event.Decline? || a.event.EventError?))
  }

  function ErrorOf(a: Action): Option<string> {
    match a
    case AcquireFailed(code) => Some(if code.Some? then code.value else "UNKNOWN_ERROR")
    case Event(SessionExpired) => Some("SESSION_EXPIRED")
    case Event(EventError(code)) => Some(if code.Some? then code.value else "SIGNING_ERROR")
    case _ => None
  }

  // The status an action leads to; None: it says nothing about it.
  function StatusOf(a: Action): Option<Status> {
    match a
    case Acquire => Some(Loading)
    case Acquired(_) => Some(Signing)
    case AcquireFailed(_) => Some(Failed)
    case Event(Complete(_)) => Some(Success)
    case Event(Cancel) => Some(Idle)
    case Event(Decline) => Some(Idle)
    case Event(SessionExpired) => Some(Failed)
    case Event(EventError(_)) => Some(Failed)
    case GoOffline => Some(Offline)
    case GoOnline => Some(Idle)
    case Retry => Some(Idle)
    case Settled => None
    case Restart => None
  }

  // Reading the history from its end: the last action that says anything
  // about the status, the url, the session, the error.
  function LastStatus(actions: seq<Action>): Status {
    if actions == [] then Idle
    else
      var said := StatusOf(actions[|actions| - 1]);
      if said.Some? then said.value else LastStatus(actions[..|actions| - 1])
  }

  function LastUrl(actions: seq<Action>): Option<string> {
    if actions == [] then None
    else
      var a := actions[|actions| - 1];
      if a.Acquired? then Some(a.session.url)
      else if HidesUrl(a) then None
      else LastUrl(actions[..|actions| - 1])
  }

  function LastSession(actions: seq<Action>): Option<Session> {
    if actions == [] then None
    else
      var a := actions[|actions| - 1];
      if a.Acquired? then Some(a.session)
      else if DropsSession(a) then None
      else LastSession(actions[..|actions| - 1])
  }

  // Acquiring a session does not clear an earlier error; retry and restart do.
  function LastError(actions: seq<Action>): Option<SigningError> {
    if actions == [] then None
    else
      var a := actions[|actions| - 1];
      if ErrorOf(a).Some? then Some(SigningError(ErrorOf(a).value))
      else if a.Retry? || a.Restart? then None
      else LastError(actions[..|actions| - 1])
  }

  lemma {:induction false} RunAppend(s: MachineState, actions: seq<Action>, a: Action)
    ensures Run(s, actions + [a]) == Transition(Run(s, actions), a).0
    decreases actions
  {
    if actions == [] {
      assert [a][1..] == [];
      assert actions + [a] == [a];
    } else {
      assert (actions + [a])[1..] == actions[1..] + [a];
      RunAppend(Transition(s, actions[0]).0, actions[1..], a);
    }
  }

  lemma TransitionSays(s: MachineState, a: Action)
    ensures var s' := Transition(s, a).0;
            && s'.status == (if StatusOf(a).Some? then StatusOf(a).value else s.status)
            && s'.signingUrl == (if a.Acquired? then Some(a.session.url) else if HidesUrl(a) then None else s.signingUrl)
            && s'.session == (if a.Acquired? then Some(a.session) else if DropsSession(a) then None else s.session)
            && s'.error == (if ErrorOf(a).Some? then Some(SigningError(ErrorOf(a).value))
                            else if a.Retry? || a.Restart? then None else s.error)
  {
    match a
    case Event(event) =>
      match event {
        case Complete(_) =>
        case Cancel =>
        case Decline =>
        case SessionExpired =>
        case EventError(_) =>
      }
    case _ =>
  }

  /** After any actions from the start, the status, the url, the session and the
      error are what the last action that concerns each of them says. */
  lemma {:induction false} StateIsItsHistory(actions: seq<Action>)
    ensures var s := Run(INITIAL, actions);
            && s.status == LastStatus(actions) && s.signingUrl == LastUrl(actions)
            && s.session == LastSession(actions) && s.error == LastError(actions)
  {
    if actions != [] {
      var front, a := actions[..|actions| - 1], actions[|actions| - 1];
      assert actions == front + [a];
      StateIsItsHistory(front);
      RunAppend(INITIAL, front, a);
      TransitionSays(Run(INITIAL, front), a);
    }
  }

  /** The host is told of exactly what happened: of an error when an action ends
      in one, and then of the error that is shown; of a completion, with the id
      the event names or else the held session's; of a cancel or a decline. */
  lemma EffectsTellTheOutcome(s: MachineState, a: Action)
    ensures var (s', effects) := Transition(s, a);
            && |effects| <= 1
            && (forall e :: ErrorEffect(e) in effects <==> ErrorOf(a).Some? && s'.status == Failed && s'.error == Some(e))
            && (CancelEffect in effects <==> a == Event(Cancel) || a == Event(Decline))
            && (forall id :: CompleteEffect(id) in effects <==>
                  a.Event? && a.event.Complete? && s'.status == Success
                  && id == if a.event.envelopeId.Some? then a.event.envelopeId
                           else if s.session.Some? then s.session.value.envelopeId else None)
  {
    match a
    case Event(event) =>
      match event {
        case Complete(_) =>
        case Cancel =>
        case Decline =>
        case SessionExpired =>
        case EventError(_) =>
      }
    case _ =>
  }
}
