/**
 The envelope mint with the host's terms callback
 (packages/esign-node/src/handlers.ts, packages/esign-service/src/prefill.ts):
 request, validation, the host's reply, the provider call. What the host
 answers is a parameter; so is what the provider does with a call.
 */
module EnvelopeMint {
  import opened Common
  import opened JsCollections
  import opened Prefill
  import Envelopes

  const CONTRACT_TYPE := "agreement"

  datatype MintRequest = MintRequest(recipient: Option<Envelopes.Recipient>, prefill: Option<TabPrefill>)

  // What the provider is asked for.
  datatype ProviderCall = ProviderCall(
    userId: string, contractType: string, recipient: Envelopes.Recipient, prefill: Option<TabPrefill>)

  datatype MintError = Validation | NotAuthorized | Other

  // What comes back from the terms endpoint.
  datatype HostReply = NoAnswer | NotOk(status: int) | NotJson | Answered(body: Json)

  datatype HttpResult =
    | Minted(url: string, envelopeId: string)   // 200
    | BadRequest                                // 400
    | Unauthorized                              // 401
    | BadGateway                                // 502

  // What the host is asked: who is minting, and what that client sent.
  datatype HostQuestion = HostQuestion(userId: string, input: TabPrefill, recipient: Option<Envelopes.Recipient>)

  type Host = HostQuestion -> HostReply

  type Provider = ProviderCall -> Result<Envelopes.ProviderEnvelope, MintError>

  // ---- The request ----

  // The signer a body names; an absent one is not a reason to refuse.
  function ParseRecipient(input: Option<Json>): Option<Option<Envelopes.Recipient>> {
    match input
    case None => Some(None)
    case Some(json) =>
      (match (Property(json, "name"), Property(json, "email"))
       case (Some(Str(name)), Some(Str(email))) => Some(Some(Envelopes.Recipient(name, email)))
       case _ => None)
  }

  // The mint's input, or None for a 400. A body that is present must be an object.
  function ParseRequest(body: Option<Json>): Option<MintRequest> {
    if body.Some? && !body.value.Obj? then None
    else
      var recipient := ParseRecipient(if body.None? then None else Property(body.value, "recipient"));
      var prefill := if body.None? then None else Property(body.value, "prefill");
      if recipient.None? then None
      else if prefill.None? then Some(MintRequest(recipient.value, None))
      else match ParseEnvelopePrefill(prefill)
        case Err(_) => None
        case Ok(p) => Some(MintRequest(recipient.value, Some(p)))
  }

  // ---- The host's terms ----

  // A reply is usable when it is a JSON object with a prefill object in it.
  function ParseReply(reply: HostReply): Option<(Json, Option<Json>)> {
    match reply
    case Answered(body) =>
      (match Property(body, "prefill")
       case Some(Obj(entries)) => Some((Obj(entries), Property(body, "recipient")))
       case _ => None)
    case _ => None
  }

  function QuestionOf(userId: string, request: MintRequest): HostQuestion {
    HostQuestion(userId, if request.prefill.None? then [] else request.prefill.value, request.recipient)
  }

  // What the host's reply makes of a request: its own signer and its own prefill.
  function HostTerms(reply: HostReply): Result<MintRequest, MintError> {
    match ParseReply(reply)
    case None => Err(Other)
    case Some((prefill, recipient)) =>
      match ParseEnvelopePrefill(Some(prefill))
      case Err(_) => Err(Other)
      case Ok(locked) =>
        match ParseRecipient(recipient)
        case Some(Some(signer)) => Ok(MintRequest(Some(signer), if |locked| == 0 then None else Some(locked)))
        case _ => Err(Other)
  }

  // ---- The mint ----

  // The mint over a provider: the answer, and the call that was made, if any.
  function EnvelopeMint(
    userId: string, request: MintRequest, provider: Provider)
    : (Result<Envelopes.ProviderEnvelope, MintError>, Option<ProviderCall>)
  {
    if request.recipient.None? || !Envelopes.ValidRecipient(request.recipient.value) then (Err(Validation), None)
    else
      var call := ProviderCall(userId, CONTRACT_TYPE, request.recipient.value, request.prefill);
      (provider(call), Some(call))
  }

  function AnswerOf(result: Result<Envelopes.ProviderEnvelope, MintError>): HttpResult {
    match result
    case Ok(envelope) => Minted(envelope.signingUrl, envelope.envelopeId)
    case Err(Validation) => BadRequest
    case Err(NotAuthorized) => Unauthorized
    case Err(Other) => BadGateway
  }

  // POST /envelope/instance; the host is None when no terms callback is configured.
  function MintInstanceHttp(
    user: Option<string>, body: Option<Json>, host: Option<Host>, provider: Provider)
    : (HttpResult, Option<ProviderCall>)
  {
    if !Envelopes.HasUser(user) then (Unauthorized, None)
    else match ParseRequest(body)
      case None => (BadRequest, None)
      case Some(request) =>
        var terms := if host.None? then Ok(request) else HostTerms(host.value(QuestionOf(user.value, request)));
        match terms
        case Err(e) => (AnswerOf(Err(e)), None)
        case Ok(minted) =>
          var (result, call) := EnvelopeMint(user.value, minted, provider);
          (AnswerOf(result), call)
  }

  // The host answered with a prefill within the contract and a signer.
  ghost predicate HostNames(reply: HostReply, signer: Envelopes.Recipient, entries: seq<Entry<string, Json>>) {
    && reply.Answered?
    && Property(reply.body, "prefill") == Some(Obj(entries))
    && ParseEnvelopePrefill(Some(Obj(entries))).Ok?
    && ParseRecipient(Property(reply.body, "recipient")) == Some(Some(signer))
  }

  lemma TermsAreTheHosts(reply: HostReply)
    ensures HostTerms(reply).Ok? <==> exists signer, entries :: HostNames(reply, signer, entries)
    ensures forall signer, entries :: HostNames(reply, signer, entries) ==>
              HostTerms(reply) == Ok(MintRequest(
                Some(signer),
                if entries == [] then None else Some(ParseEnvelopePrefill(Some(Obj(entries))).value)))
  {
    if HostTerms(reply).Ok? {
      assert HostNames(reply, HostTerms(reply).value.recipient.value, ParseReply(reply).value.0.entries);
    }
    forall signer, entries | HostNames(reply, signer, entries)
      ensures |ParseEnvelopePrefill(Some(Obj(entries))).value| == |entries|
    {
      ParsedPrefillIsStable(entries);
    }
  }

  /** The provider is called exactly when there is a user, the request is
      accepted and the host names a valid signer and an acceptable prefill; and
      then for that user, with that signer, and with tabs that decode to
      exactly the host's values and locks. Otherwise nothing is minted. */
  lemma {:induction false} OnlyTheHostsTermsAreMinted(user: Option<string>, body: Option<Json>, host: Host, provider: Provider)
    ensures var (answer, call) := MintInstanceHttp(user, body, Some(host), provider);
            && (call.Some? <==>
                Envelopes.HasUser(user) && ParseRequest(body).Some?
                && exists signer, entries ::
                     HostNames(ReplyTo(user, body, host), signer, entries) && Envelopes.ValidRecipient(signer))
            && (call.Some? ==>
                call.value.userId == user.value
                && exists entries ::
                     HostNames(ReplyTo(user, body, host), call.value.recipient, entries) && Carries(call.value, entries))
            && (call.None? ==> !answer.Minted?)
  {
    if Envelopes.HasUser(user) && ParseRequest(body).Some? {
      var reply := ReplyTo(user, body, host);
      TermsAreTheHosts(reply);
      if HostTerms(reply).Ok? {
        var signer, entries :| HostNames(reply, signer, entries);
        CarriedAsNamed(user.value, signer, entries);
      }
    }
  }

  function ReplyTo(user: Option<string>, body: Option<Json>, host: Host): HostReply
    requires Envelopes.HasUser(user) && ParseRequest(body).Some?
  {
    host(QuestionOf(user.value, ParseRequest(body).value))
  }

  lemma CarriedAsNamed(user: string, signer: Envelopes.Recipient, entries: seq<Entry<string, Json>>)
    requires ParseEnvelopePrefill(Some(Obj(entries))).Ok?
    ensures var p := ParseEnvelopePrefill(Some(Obj(entries))).value;
            Carries(ProviderCall(user, CONTRACT_TYPE, signer, if entries == [] then None else Some(p)), entries)
  {
    ParsedPrefillIsStable(entries);
    TabsDecode(ParseEnvelopePrefill(Some(Obj(entries))).value);
  }

  // The call's tabs decode to the meaning of these entries; no tabs for none.
  ghost predicate Carries(call: ProviderCall, entries: seq<Entry<string, Json>>)
    requires ParseEnvelopePrefill(Some(Obj(entries))).Ok?
  {
    var p := ParseEnvelopePrefill(Some(Obj(entries))).value;
    |p| == |entries|
    && (call.prefill.None? <==> entries == [])
    && (call.prefill.Some? ==>
        Map(TextTabsFrom(call.prefill.value), (t: TextTab) => ReadTab(t)) == Meaning(p))
  }

  /** So what the client sent has no other way to the provider: if the host
      gives the same reply to two accepted requests of one user, they get the
      same answer and make the same provider call. */
  lemma HostTermsAreAuthoritative(
    user: string, body1: Option<Json>, body2: Option<Json>, host: Host, provider: Provider)
    requires ParseRequest(body1).Some? && ParseRequest(body2).Some?
    requires host(QuestionOf(user, ParseRequest(body1).value)) == host(QuestionOf(user, ParseRequest(body2).value))
    ensures MintInstanceHttp(Some(user), body1, Some(host), provider)
            == MintInstanceHttp(Some(user), body2, Some(host), provider)
  {
  }

  // ---- The request and the answer ----

  ghost predicate NamesSigner(input: Option<Json>, signer: Option<Envelopes.Recipient>) {
    match signer
    case None => input == None
    case Some(r) =>
      input.Some? && Property(input.value, "name") == Some(Str(r.name)) && Property(input.value, "email") == Some(Str(r.email))
  }

  // The body is absent or an object; the signer and the prefill are those its
  // two properties give, or absent like them.
  ghost predicate BodySays(body: Option<Json>, signer: Option<Envelopes.Recipient>, prefill: Option<TabPrefill>) {
    var recipient := if body.None? then None else Property(body.value, "recipient");
    var raw := if body.None? then None else Property(body.value, "prefill");
    && (body.Some? ==> body.value.Obj?)
    && NamesSigner(recipient, signer)
    && (prefill.None? <==> raw.None?)
    && (prefill.Some? ==> ParseEnvelopePrefill(raw) == Ok(prefill.value))
  }

  /** A body is read as the one signer and prefill it gives, and refused when
      there is no such reading. */
  lemma RequestIsWhatTheBodySays(body: Option<Json>, signer: Option<Envelopes.Recipient>, prefill: Option<TabPrefill>)
    ensures ParseRequest(body) == Some(MintRequest(signer, prefill)) <==> BodySays(body, signer, prefill)
  {
  }

  // The question about this user and this body.
  ghost predicate IsAbout(q: HostQuestion, user: string, body: Option<Json>) {
    && q.userId == user
    && (BodySays(body, q.recipient, Some(q.input)) || (q.input == [] && BodySays(body, q.recipient, None)))
  }

  /** The host is asked about the authenticated user, the signer the body names
      and the prefill it gives, and nothing else: hosts that answer these
      questions alike give the same answers and the same provider calls. */
  lemma HostIsAskedAboutTheCaller(user: string, body: Option<Json>, host1: Host, host2: Host, provider: Provider)
    requires forall q :: IsAbout(q, user, body) ==> host1(q) == host2(q)
    ensures MintInstanceHttp(Some(user), body, Some(host1), provider)
            == MintInstanceHttp(Some(user), body, Some(host2), provider)
  {
    if Envelopes.HasUser(Some(user)) && ParseRequest(body).Some? {
      var request := ParseRequest(body).value;
      RequestIsWhatTheBodySays(body, request.recipient, request.prefill);
      assert IsAbout(QuestionOf(user, request), user, body);
    }
  }

  /** A call the provider accepts is answered with its url and id, one it
      refuses with the matching status. */
  lemma CallsAreAnswered(user: Option<string>, body: Option<Json>, host: Option<Host>, provider: Provider)
    ensures var (answer, call) := MintInstanceHttp(user, body, host, provider);
            call.Some? ==>
              && call.value.contractType == "agreement"
              && answer == match provider(call.value)
                           case Ok(e) => Minted(e.signingUrl, e.envelopeId)
                           case Err(Validation) => BadRequest
                           case Err(NotAuthorized) => Unauthorized
                           case Err(Other) => BadGateway
  {
    match MintInstanceHttp(user, body, host, provider).1
    case Some(call) => ProviderAnswers(provider(call));
    case None =>
  }

  lemma ProviderAnswers(result: Result<Envelopes.ProviderEnvelope, MintError>)
    ensures AnswerOf(result) == match result
                                case Ok(e) => Minted(e.signingUrl, e.envelopeId)
                                case Err(Validation) => BadRequest
                                case Err(NotAuthorized) => Unauthorized
                                case Err(Other) => BadGateway
  {
  }

  /** Without a call the answer is 401 for no user, 502 for a host that names no
      usable terms, and else 400. */
  lemma RefusalsAreAnswered(user: Option<string>, body: Option<Json>, host: Option<Host>, provider: Provider)
    ensures var (answer, call) := MintInstanceHttp(user, body, host, provider);
            call.None? ==>
              answer == if user == None || user == Some("") then Unauthorized
                        else if host.Some? && ParseRequest(body).Some?
                                && !exists signer, entries :: HostNames(ReplyTo(user, body, host.value), signer, entries)
                        then BadGateway
                        else BadRequest
  {
    if Envelopes.HasUser(user) && ParseRequest(body).Some? && host.Some? {
      TermsAreTheHosts(ReplyTo(user, body, host.value));
    }
  }

  /** Without a terms callback the client's own signer and prefill are minted,
      exactly when the body gives a valid signer. */
  lemma ClientTermsWithoutAHost(user: string, body: Option<Json>, provider: Provider, call: ProviderCall)
    requires user != ""
    ensures MintInstanceHttp(Some(user), body, None, provider).1 == Some(call)
            <==> call.userId == user && call.contractType == "agreement"
                 && BodySays(body, Some(call.recipient), call.prefill) && Envelopes.ValidRecipient(call.recipient)
  {
    RequestIsWhatTheBodySays(body, Some(call.recipient), call.prefill);
  }

  // ---- The Web Forms merge ----

  // The host's values laid over the client's, key by key (object spread).
  function Merge(input: Entries<string, Json>, locked: Entries<string, Json>): Entries<string, Json>
    decreases locked
  {
    if locked == [] then input else Merge(Set(input, locked[0].key, locked[0].value), locked[1..])
  }

  /** On a Web Form the host's value wins for every key it names, and only
      there. */
  lemma {:induction false} HostWinsKeyByKey(input: Entries<string, Json>, locked: Entries<string, Json>, key: string)
    requires DistinctKeys(locked)
    ensures Get(Merge(input, locked), key) == if Get(locked, key).Some? then Get(locked, key) else Get(input, key)
    decreases locked
  {
    if locked != [] {
      var e, rest := locked[0], locked[1..];
      assert locked == [e] + rest;
      HostWinsKeyByKey(Set(input, e.key, e.value), rest, key);
      GetSet(input, e.key, e.value, key);
      GetCons(e, rest, key);
      assert forall x :: x in rest ==> x.key != e.key;
    }
  }
}
