/**
 What each call of the envelope service answers, and what it leaves in the
 tables, in terms of the request and the stored records alone.
 */
module EnvelopeAnswers {
  import opened Common
  import opened JsCollections
  import opened EnvelopeStore
  import opened Envelopes
  import opened EnvelopeRuns
  import Text

  ghost predicate NotBlank(s: string) {
    exists c :: c in s && !Text.IsSpace(c)
  }

  // A name of at most 200 characters and a well-formed address.
  ghost predicate CanSign(recipient: Recipient) {
    NotBlank(recipient.name) && |recipient.name| <= 200
    && exists local, host, tail :: EmailShape(recipient.email, local, host, tail)
  }

  ghost predicate SignedIn(user: Option<string>) {
    user.Some? && user.value != ""
  }

  // The store performs this many writes and commits.
  ghost predicate Stores(draw: Draw, writes: nat) {
    draw.fault.Some? ==> draw.fault.value > writes
  }

  ghost predicate Owned(t: Tables, id: string, user: string, r: EnvelopeRecord) {
    Entry(id, r) in t.envelopes && r.userId == user
  }

  lemma GuardsAccept(value: string, recipient: Recipient)
    ensures IsId(value) <==> NotBlank(value)
    ensures ValidRecipient(recipient) <==> CanSign(recipient)
  {
    Text.BlankTrimsToNothing(value);
    Text.BlankTrimsToNothing(recipient.name);
    ValidEmailShape(recipient.email);
  }

  lemma OwnedIsFound(t: Tables, id: string, user: string)
    requires WellKeyed(t)
    ensures match GetByIdForUser(t, id, user)
            case Some(r) => Owned(t, id, user, r) && r.id == id && forall x :: Owned(t, id, user, x) ==> x == r
            case None => forall x :: !Owned(t, id, user, x)
  {
    GetMember(t.envelopes, id);
    forall x | Entry(id, x) in t.envelopes ensures Get(t.envelopes, id) == Some(x) {
      var i :| 0 <= i < |t.envelopes| && t.envelopes[i] == Entry(id, x);
      GetIn(t.envelopes, i);
    }
  }

  /** createEnvelope answers with the generated id and the provider's url, and
      stores one record and one `initiated` entry, exactly when the user is
      signed in, the input is acceptable, the provider answers and both writes
      and the commit succeed; else it names the first of these that failed. */
  lemma CreateAnswers(
    t: Tables, user: Option<string>, contractType: string, recipient: Recipient,
    provider: Result<ProviderEnvelope, string>, draw: Draw)
    ensures var (t', answer) := DoCreateEnvelope(t, user, contractType, recipient, provider, draw);
            && answer == (if !SignedIn(user) then Failed(Unauthorized)
                          else if !(NotBlank(contractType) && |contractType| <= 100 && CanSign(recipient)) then Failed(ValidationError)
                          else if provider.Err? then Failed(ProviderFailure(provider.error))
                          else if !Stores(draw, 2) then Failed(PersistenceFailed)
                          else Created(draw.id, provider.value.signingUrl))
            && (!answer.Created? ==> t' == t)
            && (answer.Created? ==>
                && t'.envelopes == Set(t.envelopes, draw.id, EnvelopeRecord(
                     draw.id, provider.value.envelopeId, user.value, contractType, Sent, draw.at, draw.at))
                && t'.audit == t.audit + [AuditEntry(
                     draw.auditId, draw.id, Initiated, draw.auditAt,
                     map[ContractTypeKey := contractType, UserIdKey := user.value])])
  {
    GuardsAccept(contractType, recipient);
    if SignedIn(user) && provider.Ok? {
      CreateCommits(t, user.value, contractType, provider.value.envelopeId, draw);
      SanitizeKeepsAllowed(map[ContractTypeKey := contractType, UserIdKey := user.value]);
    }
  }

  lemma SanitizeKeepsAllowed(metadata: Metadata)
    requires forall k :: k in metadata ==> IsAllowedKey(k)
    ensures SanitizeAuditMetadata(metadata) == metadata
  {
  }

  /** Sanitising metadata keeps the four known keys with their values and drops
      every other. */
  lemma OnlyKnownKeysAreLogged(metadata: Metadata, k: MetadataKey)
    ensures k in SanitizeAuditMetadata(metadata)
            <==> k in metadata && k in {ContractTypeKey, UserIdKey, SourceKey, ErrorCodeKey}
    ensures k in SanitizeAuditMetadata(metadata) ==> SanitizeAuditMetadata(metadata)[k] == metadata[k]
  {
  }

  /** getSigningUrl answers the provider's url, and logs one `session_restart`
      as the envelope's newest entry, exactly when the user is signed in and
      owns a `sent` envelope of that id, the input is acceptable, the provider
      answers and the append succeeds. */
  lemma {:induction false} RestartAnswers(
    t: Tables, user: Option<string>, id: string, recipient: Recipient, url: Result<string, string>, draw: Draw)
    requires WellKeyed(t)
    ensures var (t', answer) := DoGetSigningUrl(t, user, id, recipient, url, draw);
            && (answer.Reopened? <==>
                && SignedIn(user) && NotBlank(id) && CanSign(recipient) && url.Ok? && Stores(draw, 1)
                && exists r :: Owned(t, id, user.value, r) && r.status == Sent)
            && (answer.Reopened? ==>
                && url == Ok(answer.signingUrl) && t'.envelopes == t.envelopes
                && t'.audit == t.audit + [AuditEntry(
                     draw.auditId, id, SessionRestart, draw.auditAt, map[UserIdKey := user.value])]
                && ListAudit(t', id) == [t'.audit[|t.audit|]] + ListAudit(t, id))
            && (!answer.Reopened? ==>
                answer == Failed(if !SignedIn(user) then Unauthorized
                                 else if !NotBlank(id) || !CanSign(recipient) then ValidationError
                                 else if forall r :: !Owned(t, id, user.value, r) then EnvelopeNotFound
                                 else if forall r :: Owned(t, id, user.value, r) ==> r.status != Sent then ValidationError
                                 else if url.Err? then ProviderFailure(url.error)
                                 else StoreFailure))
  {
    GuardsAccept(id, recipient);
    if SignedIn(user) {
      OwnedIsFound(t, id, user.value);
      match GetByIdForUser(t, id, user.value)
      case Some(r) => ReopenAnswers(t, r, user.value, url, draw);
      case None =>
    }
  }

  lemma ReopenAnswers(t: Tables, r: EnvelopeRecord, owner: string, url: Result<string, string>, draw: Draw)
    ensures var (t', answer) := Reopen(t, r, owner, url, draw);
            && (answer.Reopened? <==> r.status == Sent && url.Ok? && Stores(draw, 1))
            && (answer.Reopened? ==>
                && url == Ok(answer.signingUrl) && t'.envelopes == t.envelopes
                && t'.audit == t.audit + [AuditEntry(
                     draw.auditId, r.id, SessionRestart, draw.auditAt, map[UserIdKey := owner])]
                && ListAudit(t', r.id) == [t'.audit[|t.audit|]] + ListAudit(t, r.id))
            && (!answer.Reopened? ==>
                answer == Failed(if r.status != Sent then ValidationError
                                 else if url.Err? then ProviderFailure(url.error) else StoreFailure))
  {
    var ops := RestartOps(r.id, owner, draw);
    assert ops[1..] == [];
    WritesRun(ops, draw.fault, t);
    ListsSeeWrites(ops[0], t, r.id);
    SanitizeKeepsAllowed(map[UserIdKey := owner]);
  }

  // The stored envelope a webhook is about.
  ghost predicate Concerns(t: Tables, event: WebhookEvent, r: EnvelopeRecord) {
    Entry(r.id, r) in t.envelopes && r.providerEnvelopeId == event.providerEnvelopeId
  }

  /** A webhook's outcome follows from the event and the stored status alone;
      an update stores the new status and logs the matching action, and
      `rejected_no_transition` is never answered: what it would catch is
      `unchanged` already. */
  lemma {:induction false} WebhookAnswers(t: Tables, event: WebhookEvent, draw: Draw, r: EnvelopeRecord)
    requires WellKeyed(t)
    ensures var (t', answer) := DoWebhook(t, event, draw);
            && (event.status.None? ==> answer == Handled(IgnoredUnknownStatus))
            && (event.status.Some? && (forall x :: !Concerns(t, event, x)) ==> answer == Handled(UnknownEnvelope))
            && (event.status.Some? && Concerns(t, event, r) ==>
                answer == if r.status == event.status.value then Handled(Unchanged)
                          else if r.status != Sent then Handled(RejectedTerminal)
                          else if !Stores(draw, 2) then Failed(StoreFailure)
                          else Handled(Updated))
            && answer != Handled(RejectedNoTransition)
            && (answer != Handled(Updated) ==> t' == t)
            && (answer == Handled(Updated) && Concerns(t, event, r) ==>
                && t'.envelopes == Set(t.envelopes, r.id, r.(status := event.status.value, updatedAt := draw.at))
                && t'.audit == t.audit + [AuditEntry(
                     draw.auditId, r.id,
                     (match event.status.value
                      case Completed => CompletedAction
                      case Voided => VoidedAction
                      case Declined => DeclinedAction
                      case Sent => FailedAction),
                     draw.auditAt, map[SourceKey := "webhook"])])
  {
    SanitizeKeepsAllowed(map[SourceKey := "webhook"]);
    ConcernsIsFound(t, event);
    match GetByProviderId(t.envelopes, event.providerEnvelopeId)
    case Some(x) =>
      if event.status.Some? && event.status.value != Sent {
        WebhookCommits(t, x, event.status.value, draw);
      }
    case None =>
  }

  lemma ConcernsIsFound(t: Tables, event: WebhookEvent)
    requires WellKeyed(t)
    ensures match GetByProviderId(t.envelopes, event.providerEnvelopeId)
            case Some(r) => Concerns(t, event, r) && Get(t.envelopes, r.id) == Some(r) && forall x :: Concerns(t, event, x) ==> x == r
            case None => forall x :: !Concerns(t, event, x)
  {
    FoundById(t, event.providerEnvelopeId);
    ProviderIdMember(t.envelopes, event.providerEnvelopeId);
    match GetByProviderId(t.envelopes, event.providerEnvelopeId)
    case Some(r) => GetMember(t.envelopes, r.id);
    case None =>
  }

  /** The two reads answer the owner with the stored fields and with the list of
      entries, and everyone else as if there were no such envelope. */
  lemma ReadAnswers(t: Tables, user: Option<string>, id: string)
    requires WellKeyed(t)
    ensures var viewed, listed := DoGetEnvelope(t, user, id), DoGetAuditLogs(t, user, id);
            && (!SignedIn(user) ==> viewed == listed == Failed(Unauthorized))
            && (SignedIn(user) && !NotBlank(id) ==> viewed == listed == Failed(ValidationError))
            && (SignedIn(user) && NotBlank(id) ==>
                && ((forall r :: !Owned(t, id, user.value, r)) ==> viewed == listed == Failed(EnvelopeNotFound))
                && forall r :: Owned(t, id, user.value, r) ==>
                     && viewed == Viewed(EnvelopeView(id, r.status, r.contractType, r.createdAt))
                     && listed == Listed(ListAudit(t, id)))
  {
    GuardsAccept(id, Recipient("", ""));
    if SignedIn(user) {
      OwnedIsFound(t, id, user.value);
    }
  }

  // The list read from the other end: the entries in the order they were appended.
  ghost predicate ReadsBack(audit: seq<AuditEntry>, id: string, listed: seq<AuditEntry>) {
    if audit == [] then listed == []
    else
      var last, front := audit[|audit| - 1], audit[..|audit| - 1];
      if last.envelopeId == id then listed != [] && listed[0] == last && ReadsBack(front, id, listed[1..])
      else ReadsBack(front, id, listed)
  }

  /** The log an owner reads is the audit table walked from its end, every entry
      of the envelope and no other. */
  lemma {:induction false} LogsAreNewestFirst(t: Tables, id: string)
    ensures ReadsBack(t.audit, id, ListAudit(t, id))
    decreases t.audit
  {
    if t.audit != [] {
      var last, front := t.audit[|t.audit| - 1], t.audit[..|t.audit| - 1];
      assert t.audit == front + [last];
      LogsAreNewestFirst(t.(audit := front), id);
      EntriesAppend(front, last, id);
      if last.envelopeId == id {
        ReverseAppend(EntriesOf(front, id), last);
      }
    }
  }
}
