/**
 The envelope service (packages/esign-node/src/envelopes.ts): five calls over
 a provider and a store, and the HTTP answer to a webhook delivery
 (packages/esign-node/src/handlers.ts).

 Everything a call gets from outside is a parameter: the provider's answer,
 the generated ids, the clock, and at which write (if any) the store fails.
 The functions say what a call does to the tables; the methods of
 EnvelopeService do it step by step on a MemoryStore.
 */
module Envelopes {
  import opened Common
  import opened EnvelopeStore
  import Text

  datatype ErrorCode =
    | Unauthorized
    | ValidationError
    | EnvelopeNotFound
    | PersistenceFailed
    | ProviderFailure(code: string)
    | StoreFailure

  datatype Recipient = Recipient(name: string, email: string)

  datatype ProviderEnvelope = ProviderEnvelope(envelopeId: string, signingUrl: string)

  datatype EnvelopeView = EnvelopeView(id: string, status: Status, contractType: string, createdAt: int)

  // A verified, parsed provider event; the status is None for one we do not track.
  datatype WebhookEvent = WebhookEvent(providerEnvelopeId: string, status: Option<Status>)

  datatype WebhookOutcome =
    | IgnoredUnknownStatus
    | UnknownEnvelope
    | Unchanged
    | RejectedTerminal
    | RejectedNoTransition
    | Updated

  // What one call draws from its environment: two fresh ids, two clock reads,
  // and the number of writes the store performs before it fails, if it does.
  datatype Draw = Draw(id: string, auditId: string, at: int, auditAt: int, fault: Option<nat>)

  datatype Call =
    | CreateEnvelopeCall(
        user: Option<string>, contractType: string, recipient: Recipient,
        provider: Result<ProviderEnvelope, string>, draw: Draw)
    | GetSigningUrlCall(
        user: Option<string>, envelopeId: string, recipient: Recipient,
        url: Result<string, string>, draw: Draw)
    | GetEnvelopeCall(user: Option<string>, id: string)
    | GetAuditLogsCall(user: Option<string>, envelopeId: string)
    | WebhookCall(event: WebhookEvent, draw: Draw)

  datatype Answer =
    | Created(envelopeId: string, signingUrl: string)
    | Reopened(signingUrl: string)
    | Viewed(view: EnvelopeView)
    | Listed(entries: seq<AuditEntry>)
    | Handled(outcome: WebhookOutcome)
    | Failed(code: ErrorCode)

  // ---- Guards (validation.ts, envelopes.ts) ----

  const MAX_CONTRACT_TYPE_LENGTH := 100
  const MAX_NAME_LENGTH := 200

  predicate HasUser(user: Option<string>) {
    user.Some? && user.value != ""
  }

  predicate IsId(value: string) {
    value != "" && Text.Trim(value) != ""
  }

  predicate ValidContractType(contractType: string) {
    IsId(contractType) && |contractType| <= MAX_CONTRACT_TYPE_LENGTH
  }

  // indexOf: the first position of c at or after `from`, or |s|.
  function IndexOfChar(s: string, c: char, from: nat): (i: nat)
    requires from <= |s|
    ensures from <= i <= |s|
    ensures i < |s| ==> s[i] == c
    ensures forall j :: from <= j < i ==> s[j] != c
    decreases |s| - from
  {
    if from == |s| || s[from] == c then from else IndexOfChar(s, c, from + 1)
  }

  predicate IsValidEmail(email: string) {
    var at := IndexOfChar(email, '@', 0);
    if at < 1 || at == |email| || IndexOfChar(email, '@', at + 1) < |email|
       || exists c :: c in email && Text.IsSpace(c)
    then false
    else
      var domain := email[at + 1..];
      var dot := IndexOfChar(domain, '.', 0);
      0 < dot < |domain| - 1 && domain[|domain| - 1] != '.'
  }

  predicate ValidRecipient(recipient: Recipient) {
    IsId(recipient.name) && |recipient.name| <= MAX_NAME_LENGTH
    && recipient.email != "" && IsValidEmail(recipient.email)
  }

  ghost predicate EmailShape(email: string, local: string, host: string, tail: string) {
    email == local + "@" + (host + "." + tail) && EmailParts(local, host, tail)
  }

  /** The check by positions accepts exactly the addresses made of a non-empty
      local part, one '@', and a domain with an inner dot that is neither its
      first nor its last character, with no white space anywhere. */
  lemma ValidEmailShape(email: string)
    ensures IsValidEmail(email) <==> exists local, host, tail :: EmailShape(email, local, host, tail)
  {
    if IsValidEmail(email) {
      var domain := email[IndexOfChar(email, '@', 0) + 1..];
      var at, dot := IndexOfChar(email, '@', 0), IndexOfChar(domain, '.', 0);
      var local, host, tail := email[..at], domain[..dot], domain[dot + 1..];
      assert domain == host + "." + tail;
      assert email == local + "@" + domain;
      assert forall c :: c in local || c in domain ==> c in email;
      assert '@' !in domain by {
        assert forall i :: 0 <= i < |domain| ==> domain[i] == email[at + 1 + i];
      }
      assert EmailShape(email, local, host, tail);
    }
    forall local, host, tail | EmailShape(email, local, host, tail) ensures IsValidEmail(email) {
      ShapedEmailIsValid(email, local, host, tail);
    }
  }

  lemma ShapedEmailIsValid(email: string, local: string, host: string, tail: string)
    requires EmailShape(email, local, host, tail)
    ensures IsValidEmail(email)
  {
    var domain := host + "." + tail;
    assert '@' !in domain;
    IndexOfFirst(local, '@', domain);
    assert email == local + ['@'] + domain;
    assert email[|local| + 1..] == domain;
    assert IndexOfChar(email, '@', |local| + 1) == |email| by {
      assert forall i :: |local| < i < |email| ==> email[i] == domain[i - |local| - 1];
    }
    IndexOfFirst(host, '.', tail);
    assert domain == host + ['.'] + tail;
    assert forall c :: c in email ==> c in local || c == '@' || c in host || c == '.' || c in tail;
  }

  lemma IndexOfFirst(before: string, c: char, after: string)
    requires c !in before
    ensures IndexOfChar(before + [c] + after, c, 0) == |before|
  {
    var s := before + [c] + after;
    assert s[|before|] == c;
    assert forall i :: 0 <= i < |before| ==> s[i] in before;
  }

  ghost predicate EmailParts(local: string, host: string, tail: string) {
    && local != "" && host != "" && tail != ""
    && '@' !in local && '@' !in host && '@' !in tail
    && '.' !in host && tail[|tail| - 1] != '.'
    && forall c :: c in local + host + tail ==> !Text.IsSpace(c)
  }

  // ---- Audit metadata (audit.ts) ----

  predicate IsAllowedKey(key: MetadataKey) {
    !key.OtherKey?
  }

  function SanitizeAuditMetadata(metadata: Metadata): (r: Metadata)
    ensures forall k :: k in r ==> IsAllowedKey(k)
  {
    map k | k in metadata && IsAllowedKey(k) :: metadata[k]
  }

  function Audit(id: string, envelopeId: string, action: AuditAction, metadata: Metadata): NewAuditEntry {
    NewAuditEntry(id, envelopeId, action, SanitizeAuditMetadata(metadata))
  }

  // ---- The webhook state machine's tables ----

  predicate IsTerminal(status: Status) {
    status != Sent
  }

  function WebhookAuditAction(status: Status): AuditAction
    requires IsTerminal(status)
  {
    match status
    case Completed => CompletedAction
    case Voided => VoidedAction
    case Declined => DeclinedAction
  }

  // ---- The transactions ----

  // A callback that performs these writes in order and throws in front of
  // the write whose number is `fault`.
  function Writes(ops: seq<Op>, fault: Option<nat>): Script {
    if fault == Some(0) then Throw
    else if ops == [] then Return
    else
      var op := ops[0];
      Seq(Write(_ => op), Writes(ops[1..], if fault.Some? then Some(fault.value - 1) else None))
  }

  function CreateOps(owner: string, contractType: string, providerId: string, draw: Draw): seq<Op> {
    [CreateEnvelope(NewEnvelope(draw.id, providerId, owner, contractType, Sent), draw.at),
     AppendAudit(
       Audit(draw.auditId, draw.id, Initiated, map[ContractTypeKey := contractType, UserIdKey := owner]), draw.auditAt)]
  }

  function WebhookOps(envelopeId: string, status: Status, draw: Draw): seq<Op>
    requires IsTerminal(status)
  {
    [UpdateStatus(envelopeId, status, draw.at),
     AppendAudit(
       Audit(draw.auditId, envelopeId, WebhookAuditAction(status), map[SourceKey := "webhook"]), draw.auditAt)]
  }

  function RestartOps(envelopeId: string, owner: string, draw: Draw): seq<Op> {
    [AppendAudit(Audit(draw.auditId, envelopeId, SessionRestart, map[UserIdKey := owner]), draw.auditAt)]
  }

  // The lines of handleWebhookEvent in front of the transaction: the outcome
  // when there is nothing to write.
  function WebhookGuard(envelope: EnvelopeRecord, newStatus: Status): Option<WebhookOutcome> {
    if envelope.status == newStatus then Some(Unchanged)
    else if IsTerminal(envelope.status) then Some(RejectedTerminal)
    else if !IsTerminal(newStatus) then Some(RejectedNoTransition)
    else None
  }

  // ---- The five calls ----

  function DoCreateEnvelope(
    t: Tables, user: Option<string>, contractType: string, recipient: Recipient,
    provider: Result<ProviderEnvelope, string>, draw: Draw): (Tables, Answer)
  {
    if !HasUser(user) then (t, Failed(Unauthorized))
    else if !ValidContractType(contractType) || !ValidRecipient(recipient) then (t, Failed(ValidationError))
    else if provider.Err? then (t, Failed(ProviderFailure(provider.error)))
    else
      var ops := CreateOps(user.value, contractType, provider.value.envelopeId, draw);
      var r := Run(Transaction(Writes(ops, draw.fault)), t);
      if r.threw then (r.tables, Failed(PersistenceFailed))
      else (r.tables, Created(draw.id, provider.value.signingUrl))
  }

  function DoGetSigningUrl(
    t: Tables, user: Option<string>, envelopeId: string, recipient: Recipient,
    url: Result<string, string>, draw: Draw): (Tables, Answer)
  {
    if !HasUser(user) then (t, Failed(Unauthorized))
    else if !IsId(envelopeId) || !ValidRecipient(recipient) then (t, Failed(ValidationError))
    else
      var envelope := GetByIdForUser(t, envelopeId, user.value);
      if envelope.None? then (t, Failed(EnvelopeNotFound))
      else Reopen(t, envelope.value, user.value, url, draw)
  }

  // The rest of getSigningUrl, for an envelope its owner holds. The audit
  // entry is appended outside any transaction.
  function Reopen(
    t: Tables, envelope: EnvelopeRecord, owner: string, url: Result<string, string>, draw: Draw): (Tables, Answer)
  {
    if envelope.status != Sent then (t, Failed(ValidationError))
    else if url.Err? then (t, Failed(ProviderFailure(url.error)))
    else
      var r := Run(Writes(RestartOps(envelope.id, owner, draw), draw.fault), t);
      if r.threw then (r.tables, Failed(StoreFailure)) else (r.tables, Reopened(url.value))
  }

  function DoGetEnvelope(t: Tables, user: Option<string>, id: string): Answer {
    if !HasUser(user) then Failed(Unauthorized)
    else if !IsId(id) then Failed(ValidationError)
    else match GetByIdForUser(t, id, user.value)
      case None => Failed(EnvelopeNotFound)
      case Some(e) => Viewed(EnvelopeView(e.id, e.status, e.contractType, e.createdAt))
  }

  function DoGetAuditLogs(t: Tables, user: Option<string>, envelopeId: string): Answer {
    if !HasUser(user) then Failed(Unauthorized)
    else if !IsId(envelopeId) then Failed(ValidationError)
    else match GetByIdForUser(t, envelopeId, user.value)
      case None => Failed(EnvelopeNotFound)
      case Some(e) => Listed(ListAudit(t, e.id))
  }

  function DoWebhook(t: Tables, event: WebhookEvent, draw: Draw): (Tables, Answer) {
    if event.status.None? then (t, Handled(IgnoredUnknownStatus))
    else match GetByProviderId(t.envelopes, event.providerEnvelopeId)
      case None => (t, Handled(UnknownEnvelope))
      case Some(envelope) =>
        var newStatus := event.status.value;
        match WebhookGuard(envelope, newStatus)
        case Some(outcome) => (t, Handled(outcome))
        case None =>
          var r := Run(Transaction(Writes(WebhookOps(envelope.id, newStatus, draw), draw.fault)), t);
          if r.threw then (r.tables, Failed(StoreFailure)) else (r.tables, Handled(Updated))
  }

  function Step(t: Tables, call: Call): (Tables, Answer) {
    match call
    case CreateEnvelopeCall(user, contractType, recipient, provider, draw) =>
      DoCreateEnvelope(t, user, contractType, recipient, provider, draw)
    case GetSigningUrlCall(user, envelopeId, recipient, url, draw) =>
      DoGetSigningUrl(t, user, envelopeId, recipient, url, draw)
    case GetEnvelopeCall(user, id) => (t, DoGetEnvelope(t, user, id))
    case GetAuditLogsCall(user, envelopeId) => (t, DoGetAuditLogs(t, user, envelopeId))
    case WebhookCall(event, draw) => DoWebhook(t, event, draw)
  }

  // A POST to the webhook: whether its signature verifies, and its event if
  // the body parses.
  datatype Delivery = Delivery(verified: bool, event: Option<WebhookEvent>, draw: Draw)

  function ProcessWebhookHttp(t: Tables, d: Delivery): (Tables, int) {
    if !d.verified then (t, 401)
    else if d.event.None? then (t, 400)
    else
      var (t', answer) := DoWebhook(t, d.event.value, d.draw);
      (t', if answer.Failed? then 500 else 200)
  }

  // ---- The service over a mutable store ----

  class EnvelopeService {
    const store: MemoryStore

    constructor (store: MemoryStore)
      ensures this.store == store
    {
      this.store := store;
    }

    method CreateEnvelope(
      user: Option<string>, contractType: string, recipient: Recipient,
      provider: Result<ProviderEnvelope, string>, draw: Draw) returns (answer: Answer)
      modifies store, store.envelopes, store.audit
      ensures (store.Contents(), answer)
              == DoCreateEnvelope(old(store.Contents()), user, contractType, recipient, provider, draw)
    {
      if !HasUser(user) {
        return Failed(Unauthorized);
      }
      if !ValidContractType(contractType) || !ValidRecipient(recipient) {
        return Failed(ValidationError);
      }
      if provider.Err? {
        return Failed(ProviderFailure(provider.error));
      }
      var ops := CreateOps(user.value, contractType, provider.value.envelopeId, draw);
      var threw := store.RunTransaction(Writes(ops, draw.fault));
      if threw {
        return Failed(PersistenceFailed);
      }
      return Created(draw.id, provider.value.signingUrl);
    }

    method GetSigningUrl(
      user: Option<string>, envelopeId: string, recipient: Recipient,
      url: Result<string, string>, draw: Draw) returns (answer: Answer)
      modifies store, store.envelopes, store.audit
      ensures (store.Contents(), answer)
              == DoGetSigningUrl(old(store.Contents()), user, envelopeId, recipient, url, draw)
    {
      if !HasUser(user) {
        return Failed(Unauthorized);
      }
      if !IsId(envelopeId) || !ValidRecipient(recipient) {
        return Failed(ValidationError);
      }
      var envelope := GetByIdForUser(store.Contents(), envelopeId, user.value);
      if envelope.None? {
        return Failed(EnvelopeNotFound);
      }
      if envelope.value.status != Sent {
        return Failed(ValidationError);
      }
      if url.Err? {
        return Failed(ProviderFailure(url.error));
      }
      var threw := store.Execute(Writes(RestartOps(envelope.value.id, user.value, draw), draw.fault));
      if threw {
        return Failed(StoreFailure);
      }
      return Reopened(url.value);
    }

    method HandleWebhookEvent(event: WebhookEvent, draw: Draw) returns (answer: Answer)
      modifies store, store.envelopes, store.audit
      ensures (store.Contents(), answer) == DoWebhook(old(store.Contents()), event, draw)
    {
      if event.status.None? {
        return Handled(IgnoredUnknownStatus);
      }
      var newStatus := event.status.value;
      var envelope := GetByProviderId(store.envelopes.entries, event.providerEnvelopeId);
      if envelope.None? {
        return Handled(UnknownEnvelope);
      }
      if envelope.value.status == newStatus {
        return Handled(Unchanged);
      }
      if IsTerminal(envelope.value.status) {
        return Handled(RejectedTerminal);
      }
      if !IsTerminal(newStatus) {
        return Handled(RejectedNoTransition);
      }
      var threw := store.RunTransaction(Writes(WebhookOps(envelope.value.id, newStatus, draw), draw.fault));
      if threw {
        return Failed(StoreFailure);
      }
      return Handled(Updated);
    }
  }
}
