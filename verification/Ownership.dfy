/**
 What a user can learn: every answer to a user is a function of that user's
 own envelopes and their audit entries, in one call and over whole runs in
 which other users and webhooks are at work.
 */
module Ownership {
  import opened Common
  import opened JsCollections
  import opened EnvelopeStore
  import opened Envelopes
  import opened EnvelopeRuns
  import opened Interleaving

  predicate OwnedBy(e: Entry<string, EnvelopeRecord>, user: string) {
    e.value.userId == user
  }

  // A user's envelopes and the audit entries of those envelopes, and nothing else.
  function ViewOf(t: Tables, user: string): Tables {
    Tables(
      Filter(t.envelopes, (e: Entry<string, EnvelopeRecord>) => OwnedBy(e, user)),
      Filter(t.audit, (a: AuditEntry) => GetByIdForUser(t, a.envelopeId, user).Some?))
  }

  function CallUser(call: Call): Option<string> {
    match call
    case CreateEnvelopeCall(user, _, _, _, _) => user
    case GetSigningUrlCall(user, _, _, _, _) => user
    case GetEnvelopeCall(user, _) => user
    case GetAuditLogsCall(user, _) => user
    case WebhookCall(_, _) => None
  }

  // The run with every other user's calls left out.
  function Purge(calls: seq<Call>, user: string): seq<Call> {
    Filter(calls, (c: Call) => c.WebhookCall? || CallUser(c) == Some(user))
  }

  // What the user is told, in order.
  function Answers(t: Tables, calls: seq<Call>, user: string): seq<Answer>
    decreases calls
  {
    if calls == [] then []
    else
      var (t', answer) := Step(t, calls[0]);
      (if CallUser(calls[0]) == Some(user) then [answer] else []) + Answers(t', calls[1..], user)
  }

  // All that is asked of a store: ids are keys, and no entry lacks its
  // envelope. Trails need not replay, so stores that raced webhooks left count.
  ghost predicate Linked(t: Tables) {
    WellKeyed(t) && NoOrphans(t)
  }

  lemma PutKeepsLinked(t: Tables, r: EnvelopeRecord, a: AuditEntry)
    requires Linked(t) && Fits(t, r) && a.envelopeId == r.id
    ensures Linked(Put(t, r, a))
  {
    PutKeepsWellKeyed(t, r, a);
    PutKeepsNoOrphans(t, r, a);
  }

  lemma CreateKeepsLinked(t: Tables, call: Call)
    requires Linked(t) && Fresh(t, call) && call.CreateEnvelopeCall?
    ensures Linked(Step(t, call).0)
  {
    CreateCallEffect(t, call);
    if HasUser(call.user) && call.provider.Ok? {
      var r := CreatedRecord(call.user.value, call.contractType, call.provider.value.envelopeId, call.draw);
      PutKeepsLinked(t, r, CreatedEntry(call.user.value, call.contractType, call.draw));
    }
  }

  lemma RestartKeepsLinked(t: Tables, t': Tables, id: string, owner: string, draw: Draw)
    requires Linked(t) && RestartsTo(t, t', id, owner, draw)
    ensures Linked(t')
  {
    var r := GetByIdForUser(t, id, owner).value;
    assert Get(t.envelopes, r.id) == Some(r);
    PutKeepsLinked(t, r, RestartEntry(id, owner, draw));
  }

  lemma WebhookKeepsLinked(t: Tables, event: WebhookEvent, draw: Draw)
    requires Linked(t)
    ensures Linked(DoWebhook(t, event, draw).0)
  {
    WebhookEffect(t, event, draw);
    if DoWebhook(t, event, draw).0 != t {
      var r := GetByProviderId(t.envelopes, event.providerEnvelopeId).value;
      PutKeepsLinked(t, MovedRecord(r, event.status.value, draw), StatusEntry(r.id, event.status.value, draw));
    }
  }

  lemma {:induction false} StepKeepsLinked(t: Tables, call: Call)
    requires Linked(t) && Fresh(t, call)
    ensures Linked(Step(t, call).0)
  {
    match call
    case CreateEnvelopeCall(_, _, _, _, _) => CreateKeepsLinked(t, call);
    case GetSigningUrlCall(_, _, _, _, _) =>
      RestartCallEffect(t, call);
      if Step(t, call).0 != t {
        RestartKeepsLinked(t, Step(t, call).0, call.envelopeId, call.user.value, call.draw);
      }
    case GetEnvelopeCall(_, _) =>
    case GetAuditLogsCall(_, _) =>
    case WebhookCall(event, draw) => WebhookKeepsLinked(t, event, draw);
  }

  // ---- Looking things up in a view ----

  lemma GetInView(m: Entries<string, EnvelopeRecord>, user: string, id: string)
    requires DistinctKeys(m)
    ensures Get(Filter(m, (e: Entry<string, EnvelopeRecord>) => OwnedBy(e, user)), id)
            == match Get(m, id) case Some(r) => if r.userId == user then Some(r) else None case None => None
  {
    GetFilter(m, (e: Entry<string, EnvelopeRecord>) => OwnedBy(e, user), id);
  }

  lemma ProviderIdInView(t: Tables, user: string, providerId: string)
    requires WellKeyed(t)
    ensures GetByProviderId(ViewOf(t, user).envelopes, providerId)
            == match GetByProviderId(t.envelopes, providerId)
               case Some(r) => if r.userId == user then Some(r) else None
               case None => None
  {
    var view := ViewOf(t, user).envelopes;
    FilterMembers(t.envelopes, (e: Entry<string, EnvelopeRecord>) => OwnedBy(e, user));
    ProviderIdMember(view, providerId);
    ProviderIdMember(t.envelopes, providerId);
    match GetByProviderId(view, providerId)
    case Some(r) =>
      var e :| e in view && e.value == r;
      var i :| 0 <= i < |t.envelopes| && t.envelopes[i] == e;
      var x := GetByProviderId(t.envelopes, providerId).value;
      var j :| 0 <= j < |t.envelopes| && t.envelopes[j].value == x;
      assert i == j;
    case None =>
  }

  // Writing one record and its audit entry, seen by a user.
  lemma PutInView(t: Tables, r: EnvelopeRecord, a: AuditEntry, user: string)
    requires NoOrphans(t) && a.envelopeId == r.id
    requires Get(t.envelopes, r.id).Some? ==> Get(t.envelopes, r.id).value.userId == r.userId
    ensures ViewOf(Put(t, r, a), user) == if r.userId == user then Put(ViewOf(t, user), r, a) else ViewOf(t, user)
  {
    FilterSet(t.envelopes, r.id, r, (e: Entry<string, EnvelopeRecord>) => OwnedBy(e, user));
    AuditInView(t, r, a, user);
  }

  lemma AuditInView(t: Tables, r: EnvelopeRecord, a: AuditEntry, user: string)
    requires NoOrphans(t) && a.envelopeId == r.id
    requires Get(t.envelopes, r.id).Some? ==> Get(t.envelopes, r.id).value.userId == r.userId
    ensures ViewOf(Put(t, r, a), user).audit == ViewOf(t, user).audit + if r.userId == user then [a] else []
  {
    var t' := Put(t, r, a);
    var owned := (x: AuditEntry) => GetByIdForUser(t, x.envelopeId, user).Some?;
    var owned' := (x: AuditEntry) => GetByIdForUser(t', x.envelopeId, user).Some?;
    forall x | x in t.audit ensures owned(x) == owned'(x) {
      GetSet(t.envelopes, r.id, r, x.envelopeId);
    }
    FilterSame(t.audit, owned, owned');
    GetSet(t.envelopes, r.id, r, r.id);
    FilterConcat(t.audit, [a], owned');
    FilterCons(a, [], owned');
  }

  lemma EntriesInView(t: Tables, user: string, id: string)
    requires GetByIdForUser(t, id, user).Some?
    ensures EntriesOf(ViewOf(t, user).audit, id) == EntriesOf(t.audit, id)
  {
    var owned := (a: AuditEntry) => GetByIdForUser(t, a.envelopeId, user).Some?;
    FilterTwice(t.audit, owned, (a: AuditEntry) => a.envelopeId == id);
  }

  // ---- One call ----

  lemma WebhookInView(t: Tables, event: WebhookEvent, draw: Draw, user: string)
    requires Linked(t)
    ensures DoWebhook(ViewOf(t, user), event, draw).0 == ViewOf(DoWebhook(t, event, draw).0, user)
  {
    var v := ViewOf(t, user);
    FoundById(t, event.providerEnvelopeId);
    ProviderIdInView(t, user, event.providerEnvelopeId);
    match GetByProviderId(t.envelopes, event.providerEnvelopeId)
    case Some(r) =>
      if event.status.Some? && WebhookGuard(r, event.status.value).None? {
        GetInView(t.envelopes, user, r.id);
        WebhookCommits(t, r, event.status.value, draw);
        if r.userId == user {
          WebhookCommits(v, r, event.status.value, draw);
        }
        var r', a := MovedRecord(r, event.status.value, draw), StatusEntry(r.id, event.status.value, draw);
        PutInView(t, r', a, user);
      }
    case None =>
  }

  lemma CreateInView(
    t: Tables, user: string, contractType: string, recipient: Recipient,
    provider: Result<ProviderEnvelope, string>, draw: Draw)
    requires NoOrphans(t) && (provider.Ok? ==> Get(t.envelopes, draw.id).None?)
    ensures var (t', answer) := DoCreateEnvelope(t, Some(user), contractType, recipient, provider, draw);
            DoCreateEnvelope(ViewOf(t, user), Some(user), contractType, recipient, provider, draw)
            == (ViewOf(t', user), answer)
  {
    if provider.Ok? {
      var providerId := provider.value.envelopeId;
      CreateCommits(t, user, contractType, providerId, draw);
      CreateCommits(ViewOf(t, user), user, contractType, providerId, draw);
      PutInView(t, CreatedRecord(user, contractType, providerId, draw), CreatedEntry(user, contractType, draw), user);
    }
  }

  // Whether and how the restart's one append fails depends on the draw alone.
  lemma RestartAppendInView(t: Tables, v: Tables, r: EnvelopeRecord, owner: string, draw: Draw)
    requires Get(t.envelopes, r.id) == Some(r) && Get(v.envelopes, r.id) == Some(r)
    ensures var ops := RestartOps(r.id, owner, draw);
            var out, out' := Run(Writes(ops, draw.fault), t), Run(Writes(ops, draw.fault), v);
            var a := RestartEntry(r.id, owner, draw);
            out.threw == out'.threw
            && ((out.tables == t && out'.tables == v) || (out.tables == Put(t, r, a) && out'.tables == Put(v, r, a)))
  {
    var ops := RestartOps(r.id, owner, draw);
    assert ops[1..] == [];
    assert Set(t.envelopes, r.id, r) == t.envelopes && Set(v.envelopes, r.id, r) == v.envelopes;
  }

  lemma ReopenInView(t: Tables, r: EnvelopeRecord, user: string, url: Result<string, string>, draw: Draw)
    requires Linked(t) && Get(t.envelopes, r.id) == Some(r) && r.userId == user
    ensures var (t', answer) := Reopen(t, r, user, url, draw);
            Reopen(ViewOf(t, user), r, user, url, draw) == (ViewOf(t', user), answer)
  {
    GetInView(t.envelopes, user, r.id);
    RestartAppendInView(t, ViewOf(t, user), r, user, draw);
    RestartPutInView(t, r, user, draw);
  }

  lemma OwnedInView(t: Tables, user: string, id: string)
    requires WellKeyed(t)
    ensures GetByIdForUser(ViewOf(t, user), id, user) == GetByIdForUser(t, id, user)
    ensures match GetByIdForUser(t, id, user)
            case Some(r) => r.id == id && r.userId == user && Get(t.envelopes, id) == Some(r)
            case None => true
  {
    GetInView(t.envelopes, user, id);
    match GetByIdForUser(t, id, user)
    case Some(r) => assert Entry(id, r) in t.envelopes;
    case None =>
  }

  lemma {:induction false} RestartInView(
    t: Tables, user: string, id: string, recipient: Recipient, url: Result<string, string>, draw: Draw)
    requires Linked(t)
    ensures var (t', answer) := DoGetSigningUrl(t, Some(user), id, recipient, url, draw);
            DoGetSigningUrl(ViewOf(t, user), Some(user), id, recipient, url, draw) == (ViewOf(t', user), answer)
  {
    OwnedInView(t, user, id);
    var envelope, v := GetByIdForUser(t, id, user), ViewOf(t, user);
    if HasUser(Some(user)) && IsId(id) && ValidRecipient(recipient) && envelope.Some? {
      ReopenInView(t, envelope.value, user, url, draw);
      assert DoGetSigningUrl(t, Some(user), id, recipient, url, draw) == Reopen(t, envelope.value, user, url, draw);
      assert DoGetSigningUrl(v, Some(user), id, recipient, url, draw) == Reopen(v, envelope.value, user, url, draw);
    }
  }

  lemma RestartPutInView(t: Tables, r: EnvelopeRecord, user: string, draw: Draw)
    requires Linked(t) && Get(t.envelopes, r.id) == Some(r) && r.userId == user
    ensures ViewOf(Put(t, r, RestartEntry(r.id, user, draw)), user)
            == Put(ViewOf(t, user), r, RestartEntry(r.id, user, draw))
  {
    PutInView(t, r, RestartEntry(r.id, user, draw), user);
  }

  lemma EnvelopeInView(t: Tables, user: string, id: string)
    requires WellKeyed(t)
    ensures DoGetEnvelope(ViewOf(t, user), Some(user), id) == DoGetEnvelope(t, Some(user), id)
  {
    OwnedInView(t, user, id);
  }

  lemma LogsInView(t: Tables, user: string, id: string)
    requires WellKeyed(t)
    ensures DoGetAuditLogs(ViewOf(t, user), Some(user), id) == DoGetAuditLogs(t, Some(user), id)
  {
    OwnedInView(t, user, id);
    if GetByIdForUser(t, id, user).Some? {
      EntriesInView(t, user, id);
    }
  }

  lemma OwnStepInView(t: Tables, call: Call, user: string)
    requires Linked(t) && Fresh(t, call) && CallUser(call) == Some(user)
    ensures Step(ViewOf(t, user), call) == (ViewOf(Step(t, call).0, user), Step(t, call).1)
  {
    match call
    case CreateEnvelopeCall(_, contractType, recipient, provider, draw) =>
      CreateInView(t, user, contractType, recipient, provider, draw);
    case GetSigningUrlCall(_, id, recipient, url, draw) => RestartInView(t, user, id, recipient, url, draw);
    case GetEnvelopeCall(_, id) => EnvelopeInView(t, user, id);
    case GetAuditLogsCall(_, id) => LogsInView(t, user, id);
  }

  lemma OtherStepInView(t: Tables, call: Call, user: string)
    requires Linked(t) && Fresh(t, call) && !call.WebhookCall? && CallUser(call) != Some(user)
    ensures ViewOf(Step(t, call).0, user) == ViewOf(t, user)
  {
    match call
    case CreateEnvelopeCall(_, _, _, _, _) =>
      CreateCallEffect(t, call);
      if HasUser(call.user) && call.provider.Ok? {
        PutInView(t, CreatedRecord(call.user.value, call.contractType, call.provider.value.envelopeId, call.draw),
                  CreatedEntry(call.user.value, call.contractType, call.draw), user);
      }
    case GetSigningUrlCall(_, _, _, _, _) =>
      RestartCallEffect(t, call);
      if HasUser(call.user) {
        match GetByIdForUser(t, call.envelopeId, call.user.value)
        case Some(r) =>
          assert Entry(call.envelopeId, r) in t.envelopes;
          PutInView(t, r, RestartEntry(r.id, call.user.value, call.draw), user);
        case None =>
      }
    case _ =>
  }

  /** Every answer to a user is the same in any two stores that agree on that
      user's envelopes and their audit entries; so a missing envelope and
      another user's envelope get the same answer. */
  lemma {:induction false} OwnershipIsAProjection(t1: Tables, t2: Tables, call: Call, user: string)
    requires Linked(t1) && Linked(t2) && Fresh(t1, call) && Fresh(t2, call) && CallUser(call) == Some(user)
    requires ViewOf(t1, user) == ViewOf(t2, user)
    ensures Step(t1, call).1 == Step(t2, call).1
    ensures ViewOf(Step(t1, call).0, user) == ViewOf(Step(t2, call).0, user)
  {
    OwnStepInView(t1, call, user);
    OwnStepInView(t2, call, user);
  }

  /** That covers every store that interleaved calls can leave. */
  lemma {:induction false} OwnershipAfterInterleaving(moves1: seq<Move>, moves2: seq<Move>, call: Call, user: string)
    requires FreshMoves(EMPTY_WORLD, moves1) && FreshMoves(EMPTY_WORLD, moves2)
    requires var t1, t2 := Moves(EMPTY_WORLD, moves1).tables, Moves(EMPTY_WORLD, moves2).tables;
             Fresh(t1, call) && Fresh(t2, call) && CallUser(call) == Some(user) && ViewOf(t1, user) == ViewOf(t2, user)
    ensures var t1, t2 := Moves(EMPTY_WORLD, moves1).tables, Moves(EMPTY_WORLD, moves2).tables;
            && Step(t1, call).1 == Step(t2, call).1
            && ViewOf(Step(t1, call).0, user) == ViewOf(Step(t2, call).0, user)
  {
    MovesKeepSafe(EMPTY_WORLD, moves1);
    MovesKeepSafe(EMPTY_WORLD, moves2);
    OwnershipIsAProjection(Moves(EMPTY_WORLD, moves1).tables, Moves(EMPTY_WORLD, moves2).tables, call, user);
  }

  // ---- Whole runs ----

  /** A user is told the same, and ends with the same view, in a run and in
      that run with every other user's calls removed, started from the user's
      view alone. */
  lemma {:induction false} OtherUsersDoNotInterfere(t: Tables, calls: seq<Call>, user: string)
    requires Linked(t) && FreshRun(t, calls)
    ensures Answers(t, calls, user) == Answers(ViewOf(t, user), Purge(calls, user), user)
    ensures ViewOf(RunCalls(t, calls), user) == RunCalls(ViewOf(t, user), Purge(calls, user))
    decreases calls
  {
    if calls != [] {
      var call, rest := calls[0], Purge(calls[1..], user);
      var t' := Step(t, call).0;
      StepKeepsLinked(t, call);
      OtherUsersDoNotInterfere(t', calls[1..], user);
      if call.WebhookCall? {
        WebhookInView(t, call.event, call.draw, user);
        assert Purge(calls, user) == [call] + rest && ([call] + rest)[1..] == rest;
      } else if CallUser(call) == Some(user) {
        OwnStepInView(t, call, user);
        assert Purge(calls, user) == [call] + rest && ([call] + rest)[1..] == rest;
      } else {
        OtherStepInView(t, call, user);
        assert Purge(calls, user) == rest;
      }
    }
  }
}
