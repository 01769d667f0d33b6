/**
 The effect that mounts a signing SDK into the page
 (packages/esign-react/src/useESignature.ts): each run of the effect starts
 one mount and, when it is torn down, must clean up whatever that mount
 produced, whether it resolves before or after. A mount that fails reports to
 the signing machine, whether or not its effect is still live.
 */
module SdkMount {
  import opened Common
  import M = SigningMachine

  datatype MountPromise = Pending | Resolved | Rejected

  // One run of the effect: its two variables, its mount, and how often the
  // mount's cleanup has been called.
  datatype EffectState = EffectState(active: bool, hasUnmount: bool, mount: MountPromise, cleanups: nat)

  const STARTED := EffectState(true, false, Pending, 0)

  function Resolve(e: EffectState): EffectState {
    if e.mount != Pending then e
    else if e.active then e.(mount := Resolved, hasUnmount := true)
    else e.(mount := Resolved, cleanups := e.cleanups + 1)
  }

  function Reject(e: EffectState): EffectState {
    if e.mount != Pending then e else e.(mount := Rejected)
  }

  // What the function the effect returned does; React calls it at most once.
  function TearDown(e: EffectState): EffectState {
    e.(active := false, cleanups := e.cleanups + if e.hasUnmount then 1 else 0)
  }

  class MountEffect {
    var active: bool
    var hasUnmount: bool
    var mount: MountPromise
    var cleanups: nat

    function Contents(): EffectState
      reads this
    {
      EffectState(active, hasUnmount, mount, cleanups)
    }

    constructor ()
      ensures Contents() == STARTED
    {
      active, hasUnmount, mount, cleanups := true, false, Pending, 0;
    }

    method OnResolved()
      modifies this
      ensures Contents() == Resolve(old(Contents()))
    {
      if mount == Pending {
        mount := Resolved;
        if active {
          hasUnmount := true;
        } else {
          cleanups := cleanups + 1;
        }
      }
    }

    // Whether the failure is reported: it is, torn down or not.
    method OnRejected() returns (reports: bool)
      modifies this
      ensures Contents() == Reject(old(Contents()))
      ensures reports <==> old(mount) == Pending
    {
      reports := mount == Pending;
      if reports {
        mount := Rejected;
      }
    }

    method OnTearDown()
      modifies this
      ensures Contents() == TearDown(old(Contents()))
    {
      active := false;
      if hasUnmount {
        cleanups := cleanups + 1;
      }
    }
  }

  // ---- Runs ----

  // Rerun: the dependencies changed; React tears the live effect down, then
  // runs the effect again, which mounts only while signing with a container.
  datatype Event =
    | Rerun(mounts: bool)
    | Unmount
    | Resolves(index: nat)
    | Rejects(index: nat, code: Option<string>)

  function TearDownLive(effects: seq<EffectState>): seq<EffectState> {
    if effects == [] || !effects[|effects| - 1].active then effects
    else effects[|effects| - 1 := TearDown(effects[|effects| - 1])]
  }

  function Next(effects: seq<EffectState>, event: Event): seq<EffectState> {
    match event
    case Rerun(mounts) => TearDownLive(effects) + if mounts then [STARTED] else []
    case Unmount => TearDownLive(effects)
    case Resolves(i) => if i < |effects| then effects[i := Resolve(effects[i])] else effects
    case Rejects(i, _) => if i < |effects| then effects[i := Reject(effects[i])] else effects
  }

  function Run(effects: seq<EffectState>, events: seq<Event>): seq<EffectState>
    decreases events
  {
    if events == [] then effects else Run(Next(effects, events[0]), events[1..])
  }

  ghost predicate CleanedExactlyOnce(e: EffectState) {
    && e.cleanups == (if e.mount == Resolved && !e.active then 1 else 0)
    && (e.active ==> e.hasUnmount == (e.mount == Resolved))
  }

  ghost predicate Safe(effects: seq<EffectState>) {
    && (forall e :: e in effects ==> CleanedExactlyOnce(e))
    && (forall i :: 0 <= i < |effects| - 1 ==> !effects[i].active)
  }

  lemma NextKeepsSafe(effects: seq<EffectState>, event: Event)
    requires Safe(effects)
    ensures Safe(Next(effects, event))
  {
    var torn := TearDownLive(effects);
    forall e | e in torn ensures CleanedExactlyOnce(e) {
      if e !in effects {
        assert effects[|effects| - 1] in effects;
      }
    }
    match event
    case Resolves(i) =>
      if i < |effects| {
        assert effects[i] in effects;
      }
    case Rejects(i, _) =>
      if i < |effects| {
        assert effects[i] in effects;
      }
    case _ =>
  }

  /** Over any number of re-runs and any order of mount results and teardowns:
      a cleanup has been called exactly once if its mount resolved and its
      effect was torn down, and not at all otherwise; and at most one effect is
      live. */
  lemma {:induction false} NoLeakedOrDoubledMounts(effects: seq<EffectState>, events: seq<Event>)
    requires Safe(effects)
    ensures Safe(Run(effects, events))
    decreases events
  {
    if events != [] {
      NextKeepsSafe(effects, events[0]);
      NoLeakedOrDoubledMounts(Next(effects, events[0]), events[1..]);
    }
  }

  // ---- The machine beside the effects ----

  datatype Flow = Flow(machine: M.MachineState, effects: seq<EffectState>)

  const IDLE := Flow(M.INITIAL, [])

  // Anything else the machine is told, or something about the effects.
  datatype Input = Acts(action: M.Action) | Effects(event: Event)

  // A mount reports its failure when it settles, once; nothing looks at `active`.
  predicate Reports(effects: seq<EffectState>, event: Event) {
    event.Rejects? && event.index < |effects| && effects[event.index].mount == Pending
  }

  function Failure(code: Option<string>): M.Action {
    M.Event(M.EventError(Some(if code.Some? then code.value else "SIGNING_ERROR")))
  }

  // The effect mounts only while the machine is signing.
  function FlowNext(f: Flow, input: Input): Flow {
    match input
    case Acts(action) => f.(machine := M.Transition(f.machine, action).0)
    case Effects(Rerun(mounts)) => f.(effects := Next(f.effects, Rerun(mounts && f.machine.status == M.Signing)))
    case Effects(event) =>
      Flow(if Reports(f.effects, event) then M.Transition(f.machine, Failure(event.code)).0 else f.machine,
           Next(f.effects, event))
  }

  function FlowRun(f: Flow, inputs: seq<Input>): Flow
    decreases inputs
  {
    if inputs == [] then f else FlowRun(FlowNext(f, inputs[0]), inputs[1..])
  }

  /** A rejection takes the held session away, whichever session that is by
      then, exactly when its mount was still under way; whether its effect had
      been torn down does not matter. */
  lemma RejectionDropsTheHeldSession(f: Flow, index: nat, code: Option<string>)
    requires f.machine.session.Some?
    ensures var machine := FlowNext(f, Effects(Rejects(index, code))).machine;
            && (machine.session.None? <==> index < |f.effects| && f.effects[index].mount == Pending)
            && (machine.session.None? ==>
                machine.status == M.Failed && machine.signingUrl == None
                && machine.error == Some(M.SigningError(if code.Some? then code.value else "SIGNING_ERROR")))
            && (machine.session.Some? ==> machine == f.machine)
  {
    var event := Rejects(index, code);
    if Reports(f.effects, event) {
      assert M.Transition(f.machine, Failure(code)).0.session == None;
    }
  }

  /** A re-run tears the live effect down and mounts a new one exactly when it
      may and the machine is signing; the machine does not change. */
  lemma MountsOnlyWhileSigning(f: Flow, mounts: bool)
    requires Safe(f.effects)
    ensures var f' := FlowNext(f, Effects(Rerun(mounts)));
            && f'.machine == f.machine
            && |f'.effects| == |f.effects| + (if mounts && f.machine.status == M.Signing then 1 else 0)
            && (forall i :: 0 <= i < |f.effects| ==> !f'.effects[i].active && f'.effects[i].mount == f.effects[i].mount)
            && (|f'.effects| > |f.effects| ==> f'.effects[|f.effects|] == STARTED)
  {
  }

  // The mounts that report during a run.
  function Reported(f: Flow, inputs: seq<Input>): seq<nat>
    decreases inputs
  {
    if inputs == [] then []
    else
      (if inputs[0].Effects? && Reports(f.effects, inputs[0].event) then [inputs[0].event.index] else [])
      + Reported(FlowNext(f, inputs[0]), inputs[1..])
  }

  ghost predicate Open(effects: seq<EffectState>, i: nat) {
    i < |effects| ==> effects[i].mount == Pending
  }

  lemma NextOpensNothing(f: Flow, input: Input, i: nat)
    requires Open(FlowNext(f, input).effects, i)
    ensures Open(f.effects, i)
    ensures !(input.Effects? && Reports(f.effects, input.event) && input.event.index == i)
  {
  }

  lemma FlowNextKeepsSafe(f: Flow, input: Input)
    requires Safe(f.effects)
    ensures Safe(FlowNext(f, input).effects)
  {
    match input
    case Acts(_) =>
    case Effects(Rerun(mounts)) => NextKeepsSafe(f.effects, Rerun(mounts && f.machine.status == M.Signing));
    case Effects(event) => NextKeepsSafe(f.effects, event);
  }

  /** Over every run of the machine and its mounts together: no mount reports
      twice or after it resolved, and no cleanup is leaked or doubled. */
  lemma {:induction false} EachMountReportsOnce(f: Flow, inputs: seq<Input>)
    requires Safe(f.effects)
    ensures Safe(FlowRun(f, inputs).effects)
    ensures forall i :: i in Reported(f, inputs) ==> Open(f.effects, i)
    ensures forall i, j :: 0 <= i < j < |Reported(f, inputs)| ==> Reported(f, inputs)[i] != Reported(f, inputs)[j]
    decreases inputs
  {
    if inputs != [] {
      var f', rest := FlowNext(f, inputs[0]), Reported(FlowNext(f, inputs[0]), inputs[1..]);
      FlowNextKeepsSafe(f, inputs[0]);
      EachMountReportsOnce(f', inputs[1..]);
      forall i | i in rest
        ensures Open(f.effects, i)
        ensures !(inputs[0].Effects? && Reports(f.effects, inputs[0].event) && inputs[0].event.index == i)
      {
        NextOpensNothing(f, inputs[0], i);
      }
      var reports := inputs[0].Effects? && Reports(f.effects, inputs[0].event);
      assert Reported(f, inputs) == (if reports then [inputs[0].event.index] else []) + rest;
      assert forall j :: 0 <= j < |rest| ==> rest[j] in rest;
    }
  }

  // A session is acquired and its effect mounts.
  function Opens(session: M.Session): seq<Input> {
    [Acts(M.Acquire), Acts(M.Acquired(session)), Effects(Rerun(true))]
  }

  lemma OpensRun(f: Flow, session: M.Session)
    ensures FlowRun(f, Opens(session))
            == Flow(f.machine.(status := M.Signing, signingUrl := Some(session.url), session := Some(session)),
                    TearDownLive(f.effects) + [STARTED])
  {
    var a, b, c := Acts(M.Acquire), Acts(M.Acquired(session)), Effects(Rerun(true));
    assert [a, b, c][1..] == [b, c] && [b, c][1..] == [c] && [c][1..] == [];
    assert FlowRun(f, [a, b, c]) == FlowRun(FlowNext(f, a), [b, c]) == FlowRun(FlowNext(FlowNext(f, a), b), [c]);
  }

  /** A late failure of the first mount ends the second signing: after a cancel
      and a new start, with the second effect live and still mounting, the
      rejection of the first, torn-down one drops the second session. */
  lemma LateRejectionDropsTheNextSession(first: M.Session, second: M.Session, code: Option<string>)
    ensures var cancelled := FlowNext(FlowNext(FlowRun(IDLE, Opens(first)), Acts(M.Event(M.Cancel))), Effects(Rerun(true)));
            var f := FlowRun(cancelled, Opens(second));
            var f' := FlowNext(f, Effects(Rejects(0, code)));
            && cancelled.machine == M.INITIAL
            && f.machine.session == Some(second) && f.effects == [TearDown(STARTED), STARTED]
            && f'.machine.session == None && f'.machine.status == M.Failed && |f'.effects| == 2 && f'.effects[1] == STARTED
  {
    OpensRun(IDLE, first);
    var signing := FlowRun(IDLE, Opens(first));
    assert signing.effects == [STARTED];
    var cancelled := FlowNext(FlowNext(signing, Acts(M.Event(M.Cancel))), Effects(Rerun(true)));
    assert cancelled == Flow(M.INITIAL, [TearDown(STARTED)]);
    OpensRun(cancelled, second);
    var f := FlowRun(cancelled, Opens(second));
    assert f.effects == [TearDown(STARTED), STARTED];
    RejectionDropsTheHeldSession(f, 0, code);
  }
}
