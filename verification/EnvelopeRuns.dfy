/**
 Whole runs of service calls that do not interleave: the audit trail replays
 to the status, the first committed terminal status wins, and a user's view
 is independent of every other user.
 */
module EnvelopeRuns {
  import opened Common
  import opened JsCollections
  import opened EnvelopeStore
  import opened Envelopes

  // ---- The audit trail as an automaton ----

  datatype Replayed = NotCreated | At(status: Status) | Impossible

  function ReplayStep(s: Replayed, action: AuditAction): Replayed {
    match s
    case NotCreated => if action == Initiated then At(Sent) else Impossible
    case At(status) =>
      if status != Sent then Impossible
      else if action == SessionRestart then At(Sent)
      else if action == CompletedAction then At(Completed)
      else if action == VoidedAction then At(Voided)
      else if action == DeclinedAction then At(Declined)
      else Impossible
    case Impossible => Impossible
  }

  // The status a trail, oldest entry first, leads to.
  function Replay(trail: seq<AuditAction>): Replayed {
    if trail == [] then NotCreated
    else ReplayStep(Replay(trail[..|trail| - 1]), trail[|trail| - 1])
  }

  function Trail(audit: seq<AuditEntry>, envelopeId: string): seq<AuditAction> {
    Map(EntriesOf(audit, envelopeId), (e: AuditEntry) => e.action)
  }

  function TerminalPart(status: Status): seq<AuditAction> {
    if IsTerminal(status) then [WebhookAuditAction(status)] else []
  }

  ghost predicate TrailShape(trail: seq<AuditAction>, restarts: nat, status: Status) {
    trail == [Initiated] + seq(restarts, _ => SessionRestart) + TerminalPart(status)
  }

  /** A trail replays to a status exactly when it is `initiated`, any number of
      `session_restart`, and then the one action naming that status if it is terminal. */
  lemma {:induction false} ReplayShape(trail: seq<AuditAction>, status: Status)
    ensures Replay(trail) == At(status) <==> exists n: nat :: TrailShape(trail, n, status)
  {
    if Replay(trail) == At(status) {
      var n := ReplayShapeForward(trail, status);
    }
    forall n: nat | TrailShape(trail, n, status) ensures Replay(trail) == At(status) {
      ReplayShapeBackward(trail, n, status);
    }
  }

  lemma {:induction false} ReplayShapeForward(trail: seq<AuditAction>, status: Status) returns (n: nat)
    requires Replay(trail) == At(status)
    ensures TrailShape(trail, n, status)
  {
    var front, last := trail[..|trail| - 1], trail[|trail| - 1];
    assert trail == front + [last];
    if last == Initiated {
      assert front == [];
      n := 0;
    } else {
      var m := ReplayShapeForward(front, Sent);
      n := if last == SessionRestart then m + 1 else m;
      if last == SessionRestart {
        assert seq(m, _ => SessionRestart) + [SessionRestart] == seq(m + 1, _ => SessionRestart);
      }
    }
  }

  lemma {:induction false} ReplayShapeBackward(trail: seq<AuditAction>, n: nat, status: Status)
    requires TrailShape(trail, n, status)
    ensures Replay(trail) == At(status)
  {
    var front := trail[..|trail| - 1];
    if IsTerminal(status) {
      assert TrailShape(front, n, Sent);
      ReplayShapeBackward(front, n, Sent);
    } else if n > 0 {
      assert front == [Initiated] + seq(n - 1, _ => SessionRestart);
      ReplayShapeBackward(front, n - 1, Sent);
    } else {
      assert front == [];
    }
  }

  // ---- The invariant ----

  ghost predicate WellKeyed(t: Tables) {
    && DistinctKeys(t.envelopes)
    && (forall e :: e in t.envelopes ==> e.key == e.value.id)
    && (forall i, j :: 0 <= i < j < |t.envelopes| ==>
          t.envelopes[i].value.providerEnvelopeId != t.envelopes[j].value.providerEnvelopeId)
  }

  // What an envelope's trail says about it.
  function Derived(audit: seq<AuditEntry>, envelopeId: string): Replayed {
    Replay(Trail(audit, envelopeId))
  }

  ghost predicate TrailsReplay(t: Tables) {
    forall e :: e in t.envelopes ==> Derived(t.audit, e.key) == At(e.value.status)
  }

  ghost predicate NoOrphans(t: Tables) {
    forall a :: a in t.audit ==> Get(t.envelopes, a.envelopeId).Some?
  }

  ghost predicate SafeMetadata(a: AuditEntry) {
    forall k :: k in a.metadata ==> IsAllowedKey(k)
  }

  ghost predicate AllowListed(t: Tables) {
    forall a :: a in t.audit ==> SafeMetadata(a)
  }

  ghost predicate Valid(t: Tables) {
    WellKeyed(t) && TrailsReplay(t) && NoOrphans(t) && AllowListed(t)
  }

  // The generated id and the provider's id are new to the tables.
  ghost predicate Fresh(t: Tables, call: Call) {
    call.CreateEnvelopeCall? && call.provider.Ok? ==>
      && Get(t.envelopes, call.draw.id).None?
      && GetByProviderId(t.envelopes, call.provider.value.envelopeId).None?
  }

  function RunCalls(t: Tables, calls: seq<Call>): Tables
    decreases calls
  {
    if calls == [] then t else RunCalls(Step(t, calls[0]).0, calls[1..])
  }

  ghost predicate FreshRun(t: Tables, calls: seq<Call>)
    decreases calls
  {
    calls != [] ==> Fresh(t, calls[0]) && FreshRun(Step(t, calls[0]).0, calls[1..])
  }

  // ---- What each transaction writes ----

  predicate Fails(ops: seq<Op>, fault: Option<nat>) {
    fault.Some? && fault.value <= |ops|
  }

  lemma {:induction false} WritesRun(ops: seq<Op>, fault: Option<nat>, t: Tables)
    requires ApplyAll(ops, t).Some?
    ensures Run(Writes(ops, fault), t).threw == Fails(ops, fault)
    ensures !Fails(ops, fault) ==> Run(Writes(ops, fault), t).tables == ApplyAll(ops, t).value
  {
    if fault != Some(0) && ops != [] {
      WritesRun(ops[1..], if fault.Some? then Some(fault.value - 1) else None, Apply(ops[0], t).value);
    }
  }

  // The tables after a commit: one record written, one audit entry added.
  function Put(t: Tables, r: EnvelopeRecord, a: AuditEntry): Tables {
    Tables(Set(t.envelopes, r.id, r), t.audit + [a])
  }

  function CreatedRecord(owner: string, contractType: string, providerId: string, draw: Draw): EnvelopeRecord {
    RecordOf(NewEnvelope(draw.id, providerId, owner, contractType, Sent), draw.at)
  }

  function CreatedEntry(owner: string, contractType: string, draw: Draw): AuditEntry {
    EntryOf(Audit(draw.auditId, draw.id, Initiated, map[ContractTypeKey := contractType, UserIdKey := owner]), draw.auditAt)
  }

  function MovedRecord(r: EnvelopeRecord, status: Status, draw: Draw): EnvelopeRecord {
    r.(status := status, updatedAt := draw.at)
  }

  function StatusEntry(id: string, status: Status, draw: Draw): AuditEntry
    requires IsTerminal(status)
  {
    EntryOf(Audit(draw.auditId, id, WebhookAuditAction(status), map[SourceKey := "webhook"]), draw.auditAt)
  }

  function RestartEntry(id: string, owner: string, draw: Draw): AuditEntry {
    EntryOf(Audit(draw.auditId, id, SessionRestart, map[UserIdKey := owner]), draw.auditAt)
  }

  lemma CreateCommits(t: Tables, owner: string, contractType: string, providerId: string, draw: Draw)
    ensures var ops := CreateOps(owner, contractType, providerId, draw);
            Run(Transaction(Writes(ops, draw.fault)), t)
            == if Fails(ops, draw.fault) then Outcome(t, true)
               else Outcome(
                 Put(t, CreatedRecord(owner, contractType, providerId, draw), CreatedEntry(owner, contractType, draw)), false)
  {
    var ops := CreateOps(owner, contractType, providerId, draw);
    var t' := Put(t, CreatedRecord(owner, contractType, providerId, draw), CreatedEntry(owner, contractType, draw));
    assert ops[1..] == [ops[1]] && ops[1..][1..] == [];
    assert ApplyAll(ops[1..][1..], t') == Some(t');
    assert ApplyAll(ops, t) == Some(t');
    WritesRun(ops, draw.fault, t);
  }

  lemma WebhookCommits(t: Tables, r: EnvelopeRecord, status: Status, draw: Draw)
    requires Get(t.envelopes, r.id) == Some(r) && IsTerminal(status)
    ensures var ops := WebhookOps(r.id, status, draw);
            Run(Transaction(Writes(ops, draw.fault)), t)
            == if Fails(ops, draw.fault) then Outcome(t, true)
               else Outcome(Put(t, MovedRecord(r, status, draw), StatusEntry(r.id, status, draw)), false)
  {
    var ops := WebhookOps(r.id, status, draw);
    var t' := Put(t, MovedRecord(r, status, draw), StatusEntry(r.id, status, draw));
    assert ops[1..] == [ops[1]] && ops[1..][1..] == [];
    assert ApplyAll(ops[1..][1..], t') == Some(t');
    assert ApplyAll(ops, t) == Some(t');
    WritesRun(ops, draw.fault, t);
  }

  // A single append outside a transaction either happens or does not, even
  // when the store fails after it.
  lemma RestartWrites(t: Tables, r: EnvelopeRecord, owner: string, draw: Draw)
    requires Get(t.envelopes, r.id) == Some(r)
    ensures var out := Run(Writes(RestartOps(r.id, owner, draw), draw.fault), t);
            && (out.tables == t || out.tables == Put(t, r, RestartEntry(r.id, owner, draw)))
            && (!out.threw ==> out.tables == Put(t, r, RestartEntry(r.id, owner, draw)))
  {
    var ops := RestartOps(r.id, owner, draw);
    assert ops[1..] == [];
    assert Set(t.envelopes, r.id, r) == t.envelopes;
  }

  // ---- Looking things up ----

  lemma FoundById(t: Tables, providerId: string)
    requires WellKeyed(t)
    ensures match GetByProviderId(t.envelopes, providerId)
            case Some(r) => r.providerEnvelopeId == providerId && Get(t.envelopes, r.id) == Some(r)
            case None => true
  {
    ProviderIdMember(t.envelopes, providerId);
    match GetByProviderId(t.envelopes, providerId)
    case Some(r) =>
      var i :| 0 <= i < |t.envelopes| && t.envelopes[i].value == r;
      GetIn(t.envelopes, i);
    case None =>
  }

  lemma TrailAppend(audit: seq<AuditEntry>, a: AuditEntry, id: string)
    ensures Trail(audit + [a], id) == Trail(audit, id) + if a.envelopeId == id then [a.action] else []
  {
    EntriesAppend(audit, a, id);
  }

  lemma DerivedAppend(audit: seq<AuditEntry>, a: AuditEntry, id: string)
    ensures Derived(audit + [a], id)
            == if a.envelopeId == id then ReplayStep(Derived(audit, id), a.action) else Derived(audit, id)
  {
    var trail := Trail(audit, id);
    TrailAppend(audit, a, id);
    if a.envelopeId == id {
      assert (trail + [a.action])[..|trail|] == trail;
    } else {
      assert trail + [] == trail;
    }
  }

  // ---- Every step keeps the invariant ----

  // The record is new in both its ids, or rewrites the record of the same ids.
  ghost predicate Fits(t: Tables, r: EnvelopeRecord) {
    match Get(t.envelopes, r.id)
    case Some(before) => before.providerEnvelopeId == r.providerEnvelopeId
    case None => GetByProviderId(t.envelopes, r.providerEnvelopeId).None?
  }

  function Before(t: Tables, id: string): Replayed {
    match Get(t.envelopes, id)
    case Some(r) => At(r.status)
    case None => NotCreated
  }

  lemma PutEntries(t: Tables, r: EnvelopeRecord, a: AuditEntry)
    requires WellKeyed(t)
    ensures forall e :: e in Put(t, r, a).envelopes ==> e == Entry(r.id, r) || (e in t.envelopes && e.key != r.id)
  {
    var i := IndexOf(t.envelopes, r.id);
    assert forall j :: 0 <= j < |t.envelopes| && j != i ==> t.envelopes[j].key != r.id;
  }

  lemma PutKeepsWellKeyed(t: Tables, r: EnvelopeRecord, a: AuditEntry)
    requires WellKeyed(t) && Fits(t, r)
    ensures WellKeyed(Put(t, r, a))
  {
    var i, m := IndexOf(t.envelopes, r.id), Set(t.envelopes, r.id, r);
    if i < |t.envelopes| {
      assert m == t.envelopes[i := Entry(r.id, r)];
    } else {
      assert m == t.envelopes + [Entry(r.id, r)];
      ProviderIdMember(t.envelopes, r.providerEnvelopeId);
      assert forall j :: 0 <= j < i ==> t.envelopes[j] in t.envelopes;
    }
  }

  lemma PutKeepsNoOrphans(t: Tables, r: EnvelopeRecord, a: AuditEntry)
    requires NoOrphans(t) && a.envelopeId == r.id
    ensures NoOrphans(Put(t, r, a))
  {
    forall x | x in Put(t, r, a).audit ensures Get(Put(t, r, a).envelopes, x.envelopeId).Some? {
      GetSet(t.envelopes, r.id, r, x.envelopeId);
    }
  }

  // The trail so far is what the tables say about this id.
  lemma DerivedBefore(t: Tables, id: string)
    requires TrailsReplay(t) && NoOrphans(t)
    ensures Derived(t.audit, id) == Before(t, id)
  {
    match Get(t.envelopes, id)
    case Some(r) => assert Entry(id, r) in t.envelopes;
    case None =>
      FilterNone(t.audit, (x: AuditEntry) => x.envelopeId == id);
      assert Trail(t.audit, id) == [];
  }

  lemma PutKeepsTrails(t: Tables, r: EnvelopeRecord, a: AuditEntry)
    requires WellKeyed(t) && TrailsReplay(t) && NoOrphans(t)
    requires a.envelopeId == r.id && ReplayStep(Before(t, r.id), a.action) == At(r.status)
    ensures TrailsReplay(Put(t, r, a))
  {
    var t' := Put(t, r, a);
    PutEntries(t, r, a);
    DerivedBefore(t, r.id);
    forall e | e in t'.envelopes ensures Derived(t'.audit, e.key) == At(e.value.status) {
      DerivedAppend(t.audit, a, e.key);
    }
  }

  lemma PutKeepsValid(t: Tables, r: EnvelopeRecord, a: AuditEntry)
    requires Valid(t) && Fits(t, r) && SafeMetadata(a)
    requires a.envelopeId == r.id && ReplayStep(Before(t, r.id), a.action) == At(r.status)
    ensures Valid(Put(t, r, a))
  {
    PutKeepsWellKeyed(t, r, a);
    PutKeepsNoOrphans(t, r, a);
    PutKeepsTrails(t, r, a);
  }

  // What createEnvelope does to the tables: nothing, or its whole transaction.
  lemma CreateCallEffect(t: Tables, call: Call)
    requires call.CreateEnvelopeCall?
    ensures var t' := Step(t, call).0;
            t' == t || (HasUser(call.user) && call.provider.Ok? && t' == CreateCallPut(t, call))
  {
    if HasUser(call.user) && call.provider.Ok? {
      CreateCommits(t, call.user.value, call.contractType, call.provider.value.envelopeId, call.draw);
    }
  }

  function CreateCallPut(t: Tables, call: Call): Tables
    requires call.CreateEnvelopeCall? && HasUser(call.user) && call.provider.Ok?
  {
    Put(t, CreatedRecord(call.user.value, call.contractType, call.provider.value.envelopeId, call.draw),
        CreatedEntry(call.user.value, call.contractType, call.draw))
  }

  // What getSigningUrl does: nothing, or one session_restart entry.
  lemma RestartCallEffect(t: Tables, call: Call)
    requires call.GetSigningUrlCall? && WellKeyed(t)
    ensures var t' := Step(t, call).0;
            t' == t || (HasUser(call.user) && RestartsTo(t, t', call.envelopeId, call.user.value, call.draw))
  {
    if HasUser(call.user) {
      match GetByIdForUser(t, call.envelopeId, call.user.value)
      case Some(r) =>
        assert Entry(call.envelopeId, r) in t.envelopes;
        RestartWrites(t, r, call.user.value, call.draw);
      case None =>
    }
  }

  ghost predicate RestartsTo(t: Tables, t': Tables, id: string, owner: string, draw: Draw) {
    match GetByIdForUser(t, id, owner)
    case Some(r) => r.id == id && r.status == Sent && t' == Put(t, r, RestartEntry(id, owner, draw))
    case None => false
  }

  lemma CreateCallKeepsValid(t: Tables, call: Call)
    requires Valid(t) && Fresh(t, call) && call.CreateEnvelopeCall?
    ensures Valid(Step(t, call).0)
  {
    CreateCallEffect(t, call);
    if HasUser(call.user) && call.provider.Ok? {
      var r := CreatedRecord(call.user.value, call.contractType, call.provider.value.envelopeId, call.draw);
      PutKeepsValid(t, r, CreatedEntry(call.user.value, call.contractType, call.draw));
    }
  }

  lemma {:induction false} RestartCallKeepsValid(t: Tables, call: Call)
    requires Valid(t) && call.GetSigningUrlCall?
    ensures Valid(Step(t, call).0)
  {
    RestartCallEffect(t, call);
    if Step(t, call).0 != t {
      RestartKeepsValid(t, Step(t, call).0, call.envelopeId, call.user.value, call.draw);
    }
  }

  lemma RestartKeepsValid(t: Tables, t': Tables, id: string, owner: string, draw: Draw)
    requires Valid(t) && RestartsTo(t, t', id, owner, draw)
    ensures Valid(t')
  {
    var r := GetByIdForUser(t, id, owner).value;
    assert Get(t.envelopes, r.id) == Some(r);
    assert Before(t, r.id) == At(Sent);
    PutKeepsValid(t, r, RestartEntry(id, owner, draw));
  }

  lemma {:induction false} StepKeepsValid(t: Tables, call: Call)
    requires Valid(t) && Fresh(t, call)
    ensures Valid(Step(t, call).0)
  {
    match call
    case CreateEnvelopeCall(_, _, _, _, _) => CreateCallKeepsValid(t, call);
    case GetSigningUrlCall(_, _, _, _, _) => RestartCallKeepsValid(t, call);
    case GetEnvelopeCall(_, _) =>
    case GetAuditLogsCall(_, _) =>
    case WebhookCall(event, draw) => WebhookKeepsValid(t, event, draw);
  }

  // What a webhook does: nothing, or its whole transaction.
  lemma WebhookEffect(t: Tables, event: WebhookEvent, draw: Draw)
    requires WellKeyed(t)
    ensures var t' := DoWebhook(t, event, draw).0;
            t' == t || (event.status.Some? && MovesTo(t, t', event.providerEnvelopeId, event.status.value, draw))
  {
    FoundById(t, event.providerEnvelopeId);
    match GetByProviderId(t.envelopes, event.providerEnvelopeId)
    case Some(r) =>
      if event.status.Some? && WebhookGuard(r, event.status.value).None? {
        WebhookCommits(t, r, event.status.value, draw);
      }
    case None =>
  }

  ghost predicate MovesTo(t: Tables, t': Tables, providerId: string, status: Status, draw: Draw) {
    IsTerminal(status)
    && match GetByProviderId(t.envelopes, providerId)
       case Some(r) =>
         r.status == Sent && Get(t.envelopes, r.id) == Some(r)
         && t' == Put(t, MovedRecord(r, status, draw), StatusEntry(r.id, status, draw))
       case None => false
  }

  lemma MoveKeepsValid(t: Tables, r: EnvelopeRecord, status: Status, draw: Draw)
    requires Valid(t) && Get(t.envelopes, r.id) == Some(r) && r.status == Sent && IsTerminal(status)
    ensures Valid(Put(t, MovedRecord(r, status, draw), StatusEntry(r.id, status, draw)))
  {
    var r', a := MovedRecord(r, status, draw), StatusEntry(r.id, status, draw);
    assert r'.id == r.id && r'.providerEnvelopeId == r.providerEnvelopeId;
    assert a.envelopeId == r.id && a.action == WebhookAuditAction(status);
    TerminalActionReplays(status);
    PutKeepsValid(t, r', a);
  }

  lemma TerminalActionReplays(status: Status)
    requires IsTerminal(status)
    ensures ReplayStep(At(Sent), WebhookAuditAction(status)) == At(status)
  {
    match status
    case Completed =>
    case Voided =>
    case Declined =>
  }

  lemma WebhookKeepsValid(t: Tables, event: WebhookEvent, draw: Draw)
    requires Valid(t)
    ensures Valid(DoWebhook(t, event, draw).0)
  {
    WebhookEffect(t, event, draw);
    if DoWebhook(t, event, draw).0 != t {
      var r := GetByProviderId(t.envelopes, event.providerEnvelopeId).value;
      MoveKeepsValid(t, r, event.status.value, draw);
    }
  }

  /** In every run of calls from tables that satisfy the invariant (the empty
      ones do), each envelope's trail replays to its stored status, no entry
      lacks its envelope and no metadata key is outside the allow-list. */
  lemma {:induction false} RunKeepsValid(t: Tables, calls: seq<Call>)
    requires Valid(t) && FreshRun(t, calls)
    ensures Valid(RunCalls(t, calls))
    decreases calls
  {
    if calls != [] {
      StepKeepsValid(t, calls[0]);
      RunKeepsValid(Step(t, calls[0]).0, calls[1..]);
    }
  }

  /** The same, for runs from the empty store, in terms of what a reader of the
      trail sees. */
  lemma {:induction false} AuditReplaysToStatus(calls: seq<Call>, e: Entry<string, EnvelopeRecord>)
    requires FreshRun(Tables([], []), calls)
    requires e in RunCalls(Tables([], []), calls).envelopes
    ensures var t := RunCalls(Tables([], []), calls);
            exists n: nat :: TrailShape(Trail(t.audit, e.key), n, e.value.status)
  {
    RunKeepsValid(Tables([], []), calls);
    ReplayShape(Trail(RunCalls(Tables([], []), calls).audit, e.key), e.value.status);
  }

  lemma FailedReopen(t: Tables, r: EnvelopeRecord, owner: string, url: Result<string, string>, draw: Draw)
    ensures var (t', answer) := Reopen(t, r, owner, url, draw);
            answer.Failed? && t' != t <==> r.status == Sent && url.Ok? && draw.fault == Some(1)
  {
    var ops := RestartOps(r.id, owner, draw);
    assert ops[1..] == [];
    WritesRun(ops, draw.fault, t);
    if draw.fault == Some(1) {
      var t' := t.(audit := t.audit + [RestartEntry(r.id, owner, draw)]);
      assert Writes(ops[1..], Some(0)) == Throw;
      assert Run(Writes(ops, Some(1)), t) == Outcome(t', true);
      assert |t'.audit| > |t.audit|;
    }
  }

  /** A call that fails leaves both tables as they were; the one exception is
      getSigningUrl, whose audit entry is appended outside any transaction and
      stays when the store fails after writing it. */
  lemma FailedCallLeavesTables(t: Tables, call: Call)
    requires WellKeyed(t) && Step(t, call).1.Failed?
    ensures Step(t, call).0 == t || (call.GetSigningUrlCall? && call.draw.fault == Some(1))
  {
    match call
    case CreateEnvelopeCall(user, contractType, _, provider, draw) =>
      if HasUser(user) && provider.Ok? {
        CreateCommits(t, user.value, contractType, provider.value.envelopeId, draw);
      }
    case GetSigningUrlCall(user, envelopeId, _, url, draw) =>
      if HasUser(user) && GetByIdForUser(t, envelopeId, user.value).Some? {
        FailedReopen(t, GetByIdForUser(t, envelopeId, user.value).value, user.value, url, draw);
      }
    case WebhookCall(event, draw) => WebhookEffect(t, event, draw);
    case _ =>
  }

  /** A created envelope is at once readable by its owner, as `sent` with
      nothing but `initiated` in its trail, under the id the call answered and
      not the provider's; to anyone else it does not exist. */
  lemma {:induction false} CreatedIsReadableByItsOwner(
    t: Tables, user: string, contractType: string, recipient: Recipient, envelope: ProviderEnvelope, draw: Draw,
    reader: string)
    requires NoOrphans(t) && Get(t.envelopes, draw.id).None? && IsId(draw.id) && reader != ""
    requires user != "" && ValidContractType(contractType) && ValidRecipient(recipient) && draw.fault == None
    ensures var (t', answer) := DoCreateEnvelope(t, Some(user), contractType, recipient, Ok(envelope), draw);
            && answer == Created(draw.id, envelope.signingUrl)
            && DoGetEnvelope(t', Some(reader), draw.id)
               == (if reader == user then Viewed(EnvelopeView(draw.id, Sent, contractType, draw.at)) else Failed(EnvelopeNotFound))
            && DoGetAuditLogs(t', Some(reader), draw.id)
               == (if reader == user then Listed([CreatedEntry(user, contractType, draw)]) else Failed(EnvelopeNotFound))
  {
    GoodInputCreates(t, user, contractType, recipient, envelope, draw);
    NewRecordIsReadable(
      t, CreatedRecord(user, contractType, envelope.envelopeId, draw), CreatedEntry(user, contractType, draw), reader);
  }

  lemma GoodInputCreates(
    t: Tables, user: string, contractType: string, recipient: Recipient, envelope: ProviderEnvelope, draw: Draw)
    requires user != "" && ValidContractType(contractType) && ValidRecipient(recipient) && draw.fault == None
    ensures DoCreateEnvelope(t, Some(user), contractType, recipient, Ok(envelope), draw)
            == (Put(t, CreatedRecord(user, contractType, envelope.envelopeId, draw), CreatedEntry(user, contractType, draw)),
                Created(draw.id, envelope.signingUrl))
  {
    CreateCommits(t, user, contractType, envelope.envelopeId, draw);
  }

  lemma NewRecordIsReadable(t: Tables, r: EnvelopeRecord, a: AuditEntry, reader: string)
    requires NoOrphans(t) && Get(t.envelopes, r.id).None? && IsId(r.id) && reader != "" && a.envelopeId == r.id
    ensures DoGetEnvelope(Put(t, r, a), Some(reader), r.id)
            == if reader == r.userId then Viewed(EnvelopeView(r.id, r.status, r.contractType, r.createdAt))
               else Failed(EnvelopeNotFound)
    ensures DoGetAuditLogs(Put(t, r, a), Some(reader), r.id)
            == if reader == r.userId then Listed([a]) else Failed(EnvelopeNotFound)
  {
    GetSet(t.envelopes, r.id, r, r.id);
    OnlyEntry(t, a);
    assert GetByIdForUser(Put(t, r, a), r.id, reader) == if r.userId == reader then Some(r) else None;
    assert ListAudit(Put(t, r, a), r.id) == [a];
  }

  lemma OnlyEntry(t: Tables, a: AuditEntry)
    requires NoOrphans(t) && Get(t.envelopes, a.envelopeId).None?
    ensures EntriesOf(t.audit + [a], a.envelopeId) == [a] == Reverse([a])
  {
    EntriesAppend(t.audit, a, a.envelopeId);
    FilterNone(t.audit, (e: AuditEntry) => e.envelopeId == a.envelopeId);
    assert [a][1..] == [];
  }

  // ---- Redelivered webhooks ----

  function DeliverAll(t: Tables, ds: seq<Delivery>): Tables
    decreases ds
  {
    if ds == [] then t else DeliverAll(ProcessWebhookHttp(t, ds[0]).0, ds[1..])
  }

  // Whether a delivery is a verified terminal status for this provider id
  // whose two writes and commit all succeed.
  predicate WouldCommit(d: Delivery, providerId: string) {
    d.verified && d.event.Some? && d.event.value.providerEnvelopeId == providerId
    && d.event.value.status.Some? && IsTerminal(d.event.value.status.value)
    && !(d.draw.fault.Some? && d.draw.fault.value <= 2)
  }

  function FirstTerminal(ds: seq<Delivery>, providerId: string): Status {
    if ds == [] then Sent
    else if WouldCommit(ds[0], providerId) then ds[0].event.value.status.value
    else FirstTerminal(ds[1..], providerId)
  }

  // A verified delivery of a terminal status for an envelope still being signed.
  predicate WouldMove(t: Tables, d: Delivery) {
    d.verified && d.event.Some? && d.event.value.status.Some? && IsTerminal(d.event.value.status.value)
    && match GetByProviderId(t.envelopes, d.event.value.providerEnvelopeId)
       case Some(r) => r.status == Sent
       case None => false
  }

  /** The answer is 401 for a bad signature, else 400 for an unreadable event,
      else 500 exactly when the store failed inside the transaction, else 200;
      and the tables change exactly when that transaction commits, so any
      answer but 200 leaves them as they were. */
  lemma HttpErrorLeavesStore(t: Tables, d: Delivery)
    requires WellKeyed(t)
    ensures var (t', answer) := ProcessWebhookHttp(t, d);
            && answer == (if !d.verified then 401
                          else if d.event.None? then 400
                          else if WouldMove(t, d) && d.draw.fault.Some? && d.draw.fault.value <= 2 then 500
                          else 200)
            && (t' != t <==> WouldMove(t, d) && answer == 200)
  {
    if d.event.Some? {
      FoundById(t, d.event.value.providerEnvelopeId);
      if WouldMove(t, d) {
        var r := GetByProviderId(t.envelopes, d.event.value.providerEnvelopeId).value;
        WebhookCommits(t, r, d.event.value.status.value, d.draw);
        assert |Put(t, MovedRecord(r, d.event.value.status.value, d.draw),
                    StatusEntry(r.id, d.event.value.status.value, d.draw)).audit| > |t.audit|;
      }
    }
  }

  /** Once an envelope is terminal, any number of further deliveries for it
      changes neither table. */
  lemma {:induction false} TerminalIsFinal(t: Tables, ds: seq<Delivery>, r: EnvelopeRecord)
    requires GetByProviderId(t.envelopes, r.providerEnvelopeId) == Some(r) && IsTerminal(r.status)
    requires forall d :: d in ds && d.event.Some? ==> d.event.value.providerEnvelopeId == r.providerEnvelopeId
    ensures DeliverAll(t, ds) == t
  {
    if ds != [] {
      assert ds[0] in ds;
      TerminalIsFinal(t, ds[1..], r);
    }
  }

  lemma {:induction false} GetByProviderIdSet(
    m: Entries<string, EnvelopeRecord>, r: EnvelopeRecord, r': EnvelopeRecord, providerId: string)
    requires Get(m, r.id) == Some(r)
    requires r'.providerEnvelopeId == r.providerEnvelopeId
    requires forall i, j :: 0 <= i < j < |m| ==> m[i].value.providerEnvelopeId != m[j].value.providerEnvelopeId
    ensures GetByProviderId(Set(m, r.id, r'), providerId)
            == if r.providerEnvelopeId == providerId then Some(r') else GetByProviderId(m, providerId)
  {
    var m' := Set(m, r.id, r');
    if m[0].key != r.id {
      assert m' == [m[0]] + Set(m[1..], r.id, r');
      assert m'[1..] == Set(m[1..], r.id, r');
      assert Entry(r.id, r) in m[1..];
      GetByProviderIdSet(m[1..], r, r', providerId);
    } else {
      assert m'[1..] == m[1..];
    }
  }

  // One delivery, seen from one envelope that is still being signed.
  lemma DeliverySeenFrom(t: Tables, d: Delivery, r: EnvelopeRecord)
    requires WellKeyed(t) && GetByProviderId(t.envelopes, r.providerEnvelopeId) == Some(r) && r.status == Sent
    ensures var t' := ProcessWebhookHttp(t, d).0;
            && WellKeyed(t')
            && GetByProviderId(t'.envelopes, r.providerEnvelopeId)
               == Some(if WouldCommit(d, r.providerEnvelopeId)
                       then r.(status := d.event.value.status.value, updatedAt := d.draw.at) else r)
  {
    if d.verified && d.event.Some? && d.event.value.status.Some? {
      var event, draw := d.event.value, d.draw;
      FoundById(t, event.providerEnvelopeId);
      match GetByProviderId(t.envelopes, event.providerEnvelopeId)
      case Some(x) =>
        if WebhookGuard(x, event.status.value).None? {
          var x' := MovedRecord(x, event.status.value, draw);
          WebhookCommits(t, x, event.status.value, draw);
          PutKeepsWellKeyed(t, x', StatusEntry(x.id, event.status.value, draw));
          GetByProviderIdSet(t.envelopes, x, x', r.providerEnvelopeId);
        }
      case None =>
    }
  }

  lemma {:induction false} TerminalStays(t: Tables, ds: seq<Delivery>, r: EnvelopeRecord)
    requires WellKeyed(t) && GetByProviderId(t.envelopes, r.providerEnvelopeId) == Some(r) && IsTerminal(r.status)
    ensures GetByProviderId(DeliverAll(t, ds).envelopes, r.providerEnvelopeId) == Some(r)
    decreases ds
  {
    if ds != [] {
      DeliveryKeepsOthers(t, ds[0], r);
      TerminalStays(ProcessWebhookHttp(t, ds[0]).0, ds[1..], r);
    }
  }

  lemma DeliveryKeepsOthers(t: Tables, d: Delivery, r: EnvelopeRecord)
    requires WellKeyed(t) && GetByProviderId(t.envelopes, r.providerEnvelopeId) == Some(r) && IsTerminal(r.status)
    ensures var t' := ProcessWebhookHttp(t, d).0;
            WellKeyed(t') && GetByProviderId(t'.envelopes, r.providerEnvelopeId) == Some(r)
  {
    if d.verified && d.event.Some? {
      WebhookEffect(t, d.event.value, d.draw);
      FoundById(t, d.event.value.providerEnvelopeId);
      if DoWebhook(t, d.event.value, d.draw).0 != t {
        var x := GetByProviderId(t.envelopes, d.event.value.providerEnvelopeId).value;
        var x' := MovedRecord(x, d.event.value.status.value, d.draw);
        PutKeepsWellKeyed(t, x', StatusEntry(x.id, d.event.value.status.value, d.draw));
        GetByProviderIdSet(t.envelopes, x, x', r.providerEnvelopeId);
      }
    }
  }

  /** After any sequence of deliveries (duplicates, reorderings, unknown
      statuses, bad signatures, failing transactions), an envelope that was
      being signed has the first terminal status whose transaction committed,
      and is still being signed if there was none. */
  lemma {:induction false} FirstTerminalWins(t: Tables, ds: seq<Delivery>, r: EnvelopeRecord)
    requires WellKeyed(t) && GetByProviderId(t.envelopes, r.providerEnvelopeId) == Some(r) && r.status == Sent
    ensures var r' := GetByProviderId(DeliverAll(t, ds).envelopes, r.providerEnvelopeId);
            r'.Some? && r'.value == r.(status := FirstTerminal(ds, r.providerEnvelopeId), updatedAt := r'.value.updatedAt)
    decreases ds
  {
    if ds != [] {
      var t' := ProcessWebhookHttp(t, ds[0]).0;
      DeliverySeenFrom(t, ds[0], r);
      if WouldCommit(ds[0], r.providerEnvelopeId) {
        TerminalStays(t', ds[1..], r.(status := ds[0].event.value.status.value, updatedAt := ds[0].draw.at));
      } else {
        FirstTerminalWins(t', ds[1..], r);
      }
    }
  }
}
