/**
 Calls that interleave. handleWebhookEvent and getSigningUrl read the envelope
 outside the transaction that writes, so between a call's read and its commit
 any number of other calls may read and commit. Each commit is atomic.
 */
module Interleaving {
  import opened Common
  import opened JsCollections
  import opened EnvelopeStore
  import opened Envelopes
  import opened EnvelopeRuns

  // A call between its read and its write.
  datatype Pending =
    | WebhookPending(envelopeId: string, status: Status)
    | RestartPending(envelopeId: string, owner: string)

  // `updates` lists, for each `updated` outcome so far, the envelope's id.
  datatype World = World(tables: Tables, pending: seq<Pending>, updates: seq<string>)

  datatype Move =
    | WebhookReads(event: WebhookEvent)
    | RestartReads(user: Option<string>, envelopeId: string, recipient: Recipient)
    | Commits(index: nat, providerFails: bool, draw: Draw)
    | Creates(call: Call)

  const EMPTY_WORLD := World(Tables([], []), [], [])

  function ReadWebhook(w: World, event: WebhookEvent): World {
    if event.status.None? then w
    else match GetByProviderId(w.tables.envelopes, event.providerEnvelopeId)
      case None => w
      case Some(r) =>
        if WebhookGuard(r, event.status.value).Some? then w
        else w.(pending := w.pending + [WebhookPending(r.id, event.status.value)])
  }

  function ReadRestart(w: World, user: Option<string>, envelopeId: string, recipient: Recipient): World {
    if !HasUser(user) || !IsId(envelopeId) || !ValidRecipient(recipient) then w
    else match GetByIdForUser(w.tables, envelopeId, user.value)
      case None => w
      case Some(r) => PendRestart(w, r, user.value)
  }

  function PendRestart(w: World, r: EnvelopeRecord, owner: string): World {
    if r.status != Sent then w else w.(pending := w.pending + [RestartPending(r.id, owner)])
  }

  // The writes of a pending call: it trusts what it read.
  function Commit(w: World, index: nat, providerFails: bool, draw: Draw): World
    requires index < |w.pending|
  {
    var rest := w.pending[..index] + w.pending[index + 1..];
    match w.pending[index]
    case WebhookPending(id, status) =>
      if !IsTerminal(status) then w.(pending := rest)
      else
        var r := Run(Transaction(Writes(WebhookOps(id, status, draw), draw.fault)), w.tables);
        World(r.tables, rest, w.updates + if r.threw then [] else [id])
    case RestartPending(id, owner) =>
      if providerFails then w.(pending := rest)
      else World(Run(Writes(RestartOps(id, owner, draw), draw.fault), w.tables).tables, rest, w.updates)
  }

  function Next(w: World, move: Move): World {
    match move
    case WebhookReads(event) => ReadWebhook(w, event)
    case RestartReads(user, envelopeId, recipient) => ReadRestart(w, user, envelopeId, recipient)
    case Commits(index, providerFails, draw) =>
      if index < |w.pending| then Commit(w, index, providerFails, draw) else w
    case Creates(call) => if call.CreateEnvelopeCall? then w.(tables := Step(w.tables, call).0) else w
  }

  function Moves(w: World, moves: seq<Move>): World
    decreases moves
  {
    if moves == [] then w else Moves(Next(w, moves[0]), moves[1..])
  }

  ghost predicate FreshMoves(w: World, moves: seq<Move>)
    decreases moves
  {
    moves != [] ==>
      (moves[0].Creates? ==> Fresh(w.tables, moves[0].call)) && FreshMoves(Next(w, moves[0]), moves[1..])
  }

  // ---- What a trail adds up to ----

  predicate IsTerminalAction(action: AuditAction) {
    action in {CompletedAction, VoidedAction, DeclinedAction}
  }

  function StatusOfAction(action: AuditAction): Status
    requires IsTerminalAction(action)
  {
    if action == CompletedAction then Completed else if action == VoidedAction then Voided else Declined
  }

  datatype Summary = Summary(first: Option<AuditAction>, initiated: nat, terminals: nat, status: Status)

  const EMPTY_SUMMARY := Summary(None, 0, 0, Sent)

  function SummaryStep(s: Summary, action: AuditAction): Summary {
    Summary(
      if s.first.None? then Some(action) else s.first,
      s.initiated + if action == Initiated then 1 else 0,
      s.terminals + if IsTerminalAction(action) then 1 else 0,
      if IsTerminalAction(action) then StatusOfAction(action) else s.status)
  }

  function Summarise(trail: seq<AuditAction>): Summary {
    if trail == [] then EMPTY_SUMMARY
    else SummaryStep(Summarise(trail[..|trail| - 1]), trail[|trail| - 1])
  }

  function Times(updates: seq<string>, id: string): nat {
    |Filter(updates, (x: string) => x == id)|
  }

  /** The summary counts the entries of the trail, and its status is that of
      the last terminal entry, `sent` if there is none. */
  lemma SummaryCounts(trail: seq<AuditAction>)
    ensures var s := Summarise(trail);
            && s.initiated == |Filter(trail, (a: AuditAction) => a == Initiated)|
            && s.terminals == |Filter(trail, (a: AuditAction) => IsTerminalAction(a))|
            && (trail != [] ==> s.first == Some(trail[0]))
            && (s.status != Sent <==> s.terminals > 0)
            && (s.terminals > 0 ==> exists i :: LastTerminalAt(trail, i, s.status))
  {
    CountsInitiated(trail);
    CountsTerminals(trail);
    EndsAtLastTerminal(trail);
  }

  lemma {:induction false} CountsInitiated(trail: seq<AuditAction>)
    ensures Summarise(trail).initiated == |Filter(trail, (a: AuditAction) => a == Initiated)|
  {
    if trail != [] {
      var front, last := trail[..|trail| - 1], trail[|trail| - 1];
      assert trail == front + [last];
      CountsInitiated(front);
      FilterConcat(front, [last], (a: AuditAction) => a == Initiated);
      FilterCons(last, [], (a: AuditAction) => a == Initiated);
    }
  }

  lemma {:induction false} CountsTerminals(trail: seq<AuditAction>)
    ensures Summarise(trail).terminals == |Filter(trail, (a: AuditAction) => IsTerminalAction(a))|
  {
    if trail != [] {
      var front, last := trail[..|trail| - 1], trail[|trail| - 1];
      assert trail == front + [last];
      CountsTerminals(front);
      FilterConcat(front, [last], (a: AuditAction) => IsTerminalAction(a));
      FilterCons(last, [], (a: AuditAction) => IsTerminalAction(a));
    }
  }

  lemma {:induction false} EndsAtLastTerminal(trail: seq<AuditAction>)
    ensures var s := Summarise(trail);
            && (trail != [] ==> s.first == Some(trail[0]))
            && (s.status != Sent <==> s.terminals > 0)
            && (s.terminals > 0 ==> exists i :: LastTerminalAt(trail, i, s.status))
  {
    if trail != [] {
      var n := |trail| - 1;
      var front, last := trail[..n], trail[n];
      EndsAtLastTerminal(front);
      if IsTerminalAction(last) {
        assert LastTerminalAt(trail, n, StatusOfAction(last));
      } else if Summarise(front).terminals > 0 {
        var i :| LastTerminalAt(front, i, Summarise(front).status);
        assert LastTerminalAt(trail, i, Summarise(front).status);
      }
    }
  }

  ghost predicate LastTerminalAt(trail: seq<AuditAction>, i: int, status: Status) {
    0 <= i < |trail| && IsTerminalAction(trail[i]) && StatusOfAction(trail[i]) == status
    && forall j :: i < j < |trail| ==> !IsTerminalAction(trail[j])
  }

  // ---- The invariant ----

  function Tally(audit: seq<AuditEntry>, id: string): Summary {
    Summarise(Trail(audit, id))
  }

  function Expected(t: Tables, updates: seq<string>, id: string): Summary {
    match Get(t.envelopes, id)
    case Some(r) => Summary(Some(Initiated), 1, Times(updates, id), r.status)
    case None => EMPTY_SUMMARY
  }

  ghost predicate Tallied(t: Tables, updates: seq<string>) {
    forall e :: e in t.envelopes ==> Tally(t.audit, e.key) == Summary(Some(Initiated), 1, Times(updates, e.key), e.value.status)
  }

  ghost predicate KnownIds(w: World) {
    && (forall id :: id in w.updates ==> Get(w.tables.envelopes, id).Some?)
    && (forall p :: p in w.pending ==> Get(w.tables.envelopes, p.envelopeId).Some?)
  }

  ghost predicate Safe(w: World) {
    WellKeyed(w.tables) && NoOrphans(w.tables) && Tallied(w.tables, w.updates) && KnownIds(w)
  }

  lemma TallyAppend(audit: seq<AuditEntry>, a: AuditEntry, id: string)
    ensures Tally(audit + [a], id)
            == if a.envelopeId == id then SummaryStep(Tally(audit, id), a.action) else Tally(audit, id)
  {
    var trail := Trail(audit, id);
    TrailAppend(audit, a, id);
    if a.envelopeId == id {
      assert (trail + [a.action])[..|trail|] == trail;
    } else {
      assert trail + [] == trail;
    }
  }

  lemma TalliedSoFar(t: Tables, updates: seq<string>, id: string)
    requires Tallied(t, updates) && NoOrphans(t)
    ensures Tally(t.audit, id) == Expected(t, updates, id)
  {
    match Get(t.envelopes, id)
    case Some(r) => assert Entry(id, r) in t.envelopes;
    case None =>
      FilterNone(t.audit, (x: AuditEntry) => x.envelopeId == id);
      assert Trail(t.audit, id) == [];
  }

  lemma TimesAppend(updates: seq<string>, id: string, x: string)
    ensures Times(updates + [x], id) == Times(updates, id) + if x == id then 1 else 0
  {
    FilterConcat(updates, [x], (y: string) => y == id);
    FilterCons(x, [], (y: string) => y == id);
  }

  lemma TimesOfUnknown(updates: seq<string>, id: string)
    requires id !in updates
    ensures Times(updates, id) == 0
  {
    FilterNone(updates, (y: string) => y == id);
  }

  lemma PutKeepsTallied(t: Tables, updates: seq<string>, updates': seq<string>, r: EnvelopeRecord, a: AuditEntry)
    requires WellKeyed(t) && NoOrphans(t) && Tallied(t, updates) && a.envelopeId == r.id
    requires forall id :: id != r.id ==> Times(updates', id) == Times(updates, id)
    requires SummaryStep(Expected(t, updates, r.id), a.action)
             == Summary(Some(Initiated), 1, Times(updates', r.id), r.status)
    ensures Tallied(Put(t, r, a), updates')
  {
    var t' := Put(t, r, a);
    PutEntries(t, r, a);
    TalliedSoFar(t, updates, r.id);
    forall e | e in t'.envelopes
      ensures Tally(t'.audit, e.key) == Summary(Some(Initiated), 1, Times(updates', e.key), e.value.status)
    {
      TallyAppend(t.audit, a, e.key);
    }
  }

  lemma PutKeepsKnown(t: Tables, r: EnvelopeRecord, a: AuditEntry, id: string)
    requires Get(t.envelopes, id).Some?
    ensures Get(Put(t, r, a).envelopes, id).Some?
  {
    GetSet(t.envelopes, r.id, r, id);
  }

  lemma {:induction false} PutKeepsSafe(w: World, w': World, r: EnvelopeRecord, a: AuditEntry)
    requires Safe(w) && Fits(w.tables, r) && a.envelopeId == r.id && w'.tables == Put(w.tables, r, a)
    requires forall p :: p in w'.pending ==> p in w.pending
    requires w'.updates == w.updates || (w'.updates == w.updates + [r.id])
    requires SummaryStep(Expected(w.tables, w.updates, r.id), a.action)
             == Summary(Some(Initiated), 1, Times(w'.updates, r.id), r.status)
    ensures Safe(w')
  {
    PutKeepsWellKeyed(w.tables, r, a);
    PutKeepsNoOrphans(w.tables, r, a);
    forall id | id != r.id ensures Times(w'.updates, id) == Times(w.updates, id) {
      TimesAppend(w.updates, id, r.id);
    }
    PutKeepsTallied(w.tables, w.updates, w'.updates, r, a);
    forall id | Get(w.tables.envelopes, id).Some? ensures Get(w'.tables.envelopes, id).Some? {
      PutKeepsKnown(w.tables, r, a, id);
    }
    GetSet(w.tables.envelopes, r.id, r, r.id);
  }

  // A successful commit of the pending webhook in front of `rest`.
  lemma WebhookCommitWorld(w: World, index: nat, r: EnvelopeRecord, draw: Draw)
    requires index < |w.pending| && w.pending[index].WebhookPending? && IsTerminal(w.pending[index].status)
    requires w.pending[index].envelopeId == r.id && Get(w.tables.envelopes, r.id) == Some(r)
    ensures var status, rest := w.pending[index].status, w.pending[..index] + w.pending[index + 1..];
            Commit(w, index, false, draw) == Commit(w, index, true, draw)
            == if Fails(WebhookOps(r.id, status, draw), draw.fault) then w.(pending := rest)
               else World(Put(w.tables, MovedRecord(r, status, draw), StatusEntry(r.id, status, draw)), rest, w.updates + [r.id])
  {
    WebhookCommits(w.tables, r, w.pending[index].status, draw);
  }

  lemma MovedTally(t: Tables, updates: seq<string>, r: EnvelopeRecord, status: Status)
    requires Get(t.envelopes, r.id) == Some(r) && IsTerminal(status)
    ensures SummaryStep(Expected(t, updates, r.id), WebhookAuditAction(status))
            == Summary(Some(Initiated), 1, Times(updates + [r.id], r.id), status)
  {
    TimesAppend(updates, r.id, r.id);
    match status
    case Completed =>
    case Voided =>
    case Declined =>
  }

  lemma WebhookCommitKeepsSafe(w: World, index: nat, providerFails: bool, draw: Draw)
    requires Safe(w) && index < |w.pending| && w.pending[index].WebhookPending? && IsTerminal(w.pending[index].status)
    ensures Safe(Commit(w, index, providerFails, draw))
  {
    var p, w' := w.pending[index], Commit(w, index, providerFails, draw);
    var r := Get(w.tables.envelopes, p.envelopeId).value;
    assert Entry(p.envelopeId, r) in w.tables.envelopes;
    WebhookCommitWorld(w, index, r, draw);
    MovedTally(w.tables, w.updates, r, p.status);
    if w'.updates != w.updates {
      PutKeepsSafe(w, w', MovedRecord(r, p.status, draw), StatusEntry(r.id, p.status, draw));
    }
  }

  lemma RestartCommitKeepsSafe(w: World, index: nat, providerFails: bool, draw: Draw)
    requires Safe(w) && index < |w.pending| && w.pending[index].RestartPending?
    ensures Safe(Commit(w, index, providerFails, draw))
  {
    var p, w' := w.pending[index], Commit(w, index, providerFails, draw);
    var r := Get(w.tables.envelopes, p.envelopeId).value;
    assert Entry(p.envelopeId, r) in w.tables.envelopes;
    RestartWrites(w.tables, r, p.owner, draw);
    if w'.tables != w.tables {
      var a := RestartEntry(r.id, p.owner, draw);
      assert a.action == SessionRestart;
      PutKeepsSafe(w, w', r, a);
    }
  }

  lemma {:induction false} CreateKeepsSafe(w: World, call: Call)
    requires Safe(w) && call.CreateEnvelopeCall? && Fresh(w.tables, call)
    ensures Safe(w.(tables := Step(w.tables, call).0))
  {
    CreateCallEffect(w.tables, call);
    if Step(w.tables, call).0 != w.tables {
      CreatedIsSafe(w, call.user.value, call.contractType, call.provider.value.envelopeId, call.draw);
    }
  }

  lemma CreatedIsSafe(w: World, owner: string, contractType: string, providerId: string, draw: Draw)
    requires Safe(w)
    requires Get(w.tables.envelopes, draw.id).None? && GetByProviderId(w.tables.envelopes, providerId).None?
    ensures Safe(w.(tables := Put(w.tables, CreatedRecord(owner, contractType, providerId, draw),
                                  CreatedEntry(owner, contractType, draw))))
  {
    var r, a := CreatedRecord(owner, contractType, providerId, draw), CreatedEntry(owner, contractType, draw);
    assert r.id == draw.id && r.status == Sent && r.providerEnvelopeId == providerId;
    assert a.envelopeId == draw.id && a.action == Initiated;
    TimesOfUnknown(w.updates, draw.id);
    PutKeepsSafe(w, w.(tables := Put(w.tables, r, a)), r, a);
  }

  lemma ReadKeepsSafe(w: World, p: Pending)
    requires Safe(w) && Get(w.tables.envelopes, p.envelopeId).Some?
    ensures Safe(w.(pending := w.pending + [p]))
  {
  }

  lemma RestartReadKeepsSafe(w: World, user: Option<string>, envelopeId: string, recipient: Recipient)
    requires Safe(w)
    ensures Safe(ReadRestart(w, user, envelopeId, recipient))
  {
    if HasUser(user) {
      match GetByIdForUser(w.tables, envelopeId, user.value)
      case Some(r) =>
        assert Entry(envelopeId, r) in w.tables.envelopes;
        ReadKeepsSafe(w, RestartPending(r.id, user.value));
      case None =>
    }
  }

  lemma WebhookReadKeepsSafe(w: World, event: WebhookEvent)
    requires Safe(w)
    ensures Safe(ReadWebhook(w, event))
  {
    FoundById(w.tables, event.providerEnvelopeId);
    if ReadWebhook(w, event) != w {
      var r := GetByProviderId(w.tables.envelopes, event.providerEnvelopeId).value;
      ReadKeepsSafe(w, WebhookPending(r.id, event.status.value));
    }
  }

  lemma CommitKeepsSafe(w: World, index: nat, providerFails: bool, draw: Draw)
    requires Safe(w) && index < |w.pending|
    ensures Safe(Commit(w, index, providerFails, draw))
  {
    match w.pending[index]
    case WebhookPending(_, status) =>
      if IsTerminal(status) {
        WebhookCommitKeepsSafe(w, index, providerFails, draw);
      }
    case RestartPending(_, _) => RestartCommitKeepsSafe(w, index, providerFails, draw);
  }

  lemma {:induction false} NextKeepsSafe(w: World, move: Move)
    requires Safe(w) && (move.Creates? ==> Fresh(w.tables, move.call))
    ensures Safe(Next(w, move))
  {
    match move
    case WebhookReads(event) => WebhookReadKeepsSafe(w, event);
    case RestartReads(user, envelopeId, recipient) => RestartReadKeepsSafe(w, user, envelopeId, recipient);
    case Commits(index, providerFails, draw) =>
      if index < |w.pending| {
        CommitKeepsSafe(w, index, providerFails, draw);
      }
    case Creates(call) =>
      if call.CreateEnvelopeCall? {
        CreateKeepsSafe(w, call);
      }
  }

  lemma {:induction false} MovesKeepSafe(w: World, moves: seq<Move>)
    requires Safe(w) && FreshMoves(w, moves)
    ensures Safe(Moves(w, moves))
    decreases moves
  {
    if moves != [] {
      NextKeepsSafe(w, moves[0]);
      MovesKeepSafe(Next(w, moves[0]), moves[1..]);
    }
  }

  /** However reads and commits of webhook, restart and create calls
      interleave, every envelope's trail begins with its only `initiated`, has
      as many terminal entries as there were `updated` outcomes for it, and its
      status is that of the last of them: terminal exactly when there is one. */
  lemma {:induction false} InterleavedSafety(moves: seq<Move>, e: Entry<string, EnvelopeRecord>)
    requires FreshMoves(EMPTY_WORLD, moves)
    requires e in Moves(EMPTY_WORLD, moves).tables.envelopes
    ensures var w := Moves(EMPTY_WORLD, moves);
            var trail := Trail(w.tables.audit, e.key);
            && trail != [] && trail[0] == Initiated
            && |Filter(trail, (a: AuditAction) => a == Initiated)| == 1
            && |Filter(trail, (a: AuditAction) => IsTerminalAction(a))| == Times(w.updates, e.key)
            && (IsTerminal(e.value.status) <==> Times(w.updates, e.key) > 0)
            && (IsTerminal(e.value.status) ==> exists i :: LastTerminalAt(trail, i, e.value.status))
  {
    MovesKeepSafe(EMPTY_WORLD, moves);
    SummaryCounts(Trail(Moves(EMPTY_WORLD, moves).tables.audit, e.key));
  }

  // ---- Statuses only move forward ----

  ghost predicate KeepsTerminal(t: Tables, t': Tables, id: string) {
    match Get(t.envelopes, id)
    case Some(r) =>
      (match Get(t'.envelopes, id)
       case Some(r') => IsTerminal(r.status) ==> IsTerminal(r'.status)
       case None => false)
    case None => true
  }

  lemma CommitKeepsTerminal(w: World, index: nat, providerFails: bool, draw: Draw, id: string)
    requires Safe(w) && index < |w.pending|
    ensures KeepsTerminal(w.tables, Commit(w, index, providerFails, draw).tables, id)
  {
    var p := w.pending[index];
    assert p in w.pending;
    var r := Get(w.tables.envelopes, p.envelopeId).value;
    assert Entry(p.envelopeId, r) in w.tables.envelopes;
    match p
    case WebhookPending(_, status) =>
      if IsTerminal(status) {
        WebhookCommits(w.tables, r, status, draw);
        GetSet(w.tables.envelopes, r.id, MovedRecord(r, status, draw), id);
      }
    case RestartPending(_, owner) =>
      RestartWrites(w.tables, r, owner, draw);
      GetSet(w.tables.envelopes, r.id, r, id);
  }

  lemma CreateKeepsTerminal(t: Tables, call: Call, id: string)
    requires call.CreateEnvelopeCall? && Fresh(t, call)
    ensures KeepsTerminal(t, Step(t, call).0, id)
  {
    CreateCallEffect(t, call);
    if HasUser(call.user) && call.provider.Ok? {
      var r := CreatedRecord(call.user.value, call.contractType, call.provider.value.envelopeId, call.draw);
      GetSet(t.envelopes, r.id, r, id);
    }
  }

  lemma NextKeepsTerminal(w: World, move: Move, id: string)
    requires Safe(w) && (move.Creates? ==> Fresh(w.tables, move.call))
    ensures KeepsTerminal(w.tables, Next(w, move).tables, id)
  {
    match move
    case WebhookReads(event) => assert ReadWebhook(w, event).tables == w.tables;
    case RestartReads(user, envelopeId, recipient) =>
      assert ReadRestart(w, user, envelopeId, recipient).tables == w.tables;
    case Commits(index, providerFails, draw) =>
      if index < |w.pending| {
        CommitKeepsTerminal(w, index, providerFails, draw, id);
      }
    case Creates(call) =>
      if call.CreateEnvelopeCall? {
        CreateKeepsTerminal(w.tables, call, id);
      }
  }

  /** No interleaving ever takes an envelope back to `sent`, or loses one. */
  lemma {:induction false} NeverBackToSent(w: World, moves: seq<Move>, id: string)
    requires Safe(w) && FreshMoves(w, moves)
    ensures KeepsTerminal(w.tables, Moves(w, moves).tables, id)
    decreases moves
  {
    if moves != [] {
      NextKeepsSafe(w, moves[0]);
      NextKeepsTerminal(w, moves[0], id);
      NeverBackToSent(Next(w, moves[0]), moves[1..], id);
    }
  }

  // ---- A call whose commit follows its read at once ----

  // The commit of whatever the read just left pending, if anything.
  function ThenCommit(before: World, after: World, providerFails: bool, draw: Draw): World {
    if |after.pending| > |before.pending| then Commit(after, |before.pending|, providerFails, draw) else after
  }

  lemma LastPending(pending: seq<Pending>, p: Pending)
    ensures (pending + [p])[..|pending|] + (pending + [p])[|pending| + 1..] == pending
  {
  }

  /** A webhook whose commit follows its read at once does what the
      uninterrupted call does, and counts as an update exactly when that call
      answers `updated`. */
  lemma UninterruptedWebhook(w: World, event: WebhookEvent, draw: Draw)
    requires WellKeyed(w.tables)
    ensures var w' := ThenCommit(w, Next(w, WebhookReads(event)), false, draw);
            var (t', answer) := DoWebhook(w.tables, event, draw);
            && w'.tables == t' && w'.pending == w.pending
            && (w'.updates != w.updates <==> answer == Handled(Updated))
  {
    FoundById(w.tables, event.providerEnvelopeId);
    match GetByProviderId(w.tables.envelopes, event.providerEnvelopeId)
    case Some(r) =>
      if event.status.Some? && WebhookGuard(r, event.status.value).None? {
        LastPending(w.pending, WebhookPending(r.id, event.status.value));
        WebhookCommitWorld(Next(w, WebhookReads(event)), |w.pending|, r, draw);
        WebhookCommits(w.tables, r, event.status.value, draw);
        assert |w.updates + [r.id]| > |w.updates|;
      }
    case None =>
  }

  /** Likewise a restart. */
  lemma UninterruptedRestart(
    w: World, user: Option<string>, id: string, recipient: Recipient, url: Result<string, string>, draw: Draw)
    requires WellKeyed(w.tables)
    ensures var w' := ThenCommit(w, Next(w, RestartReads(user, id, recipient)), url.Err?, draw);
            w'.tables == DoGetSigningUrl(w.tables, user, id, recipient, url, draw).0
            && w'.pending == w.pending && w'.updates == w.updates
  {
    if HasUser(user) {
      match GetByIdForUser(w.tables, id, user.value)
      case Some(r) => UninterruptedReopen(w, r, user.value, url, draw);
      case None =>
    }
  }

  lemma UninterruptedReopen(w: World, r: EnvelopeRecord, owner: string, url: Result<string, string>, draw: Draw)
    ensures ThenCommit(w, PendRestart(w, r, owner), url.Err?, draw)
            == w.(tables := Reopen(w.tables, r, owner, url, draw).0)
  {
    LastPending(w.pending, RestartPending(r.id, owner));
  }

  // ---- Where the sequential guarantee ends ----

  // Known before the commit: the provider has failed, the store will fail
  // before the writes are in, or there is nothing to write.
  predicate WritesNothing(p: Pending, providerFails: bool, draw: Draw) {
    match p
    case WebhookPending(_, status) => !IsTerminal(status) || (draw.fault.Some? && draw.fault.value <= 2)
    case RestartPending(_, _) => providerFails || draw.fault == Some(0)
  }

  /** From tables whose trails replay, a commit leaves tables whose trails
      replay exactly when it writes nothing or the envelope is still `sent` at
      the commit: the guard that was checked at the read. */
  lemma CommitReplaysIffStillSent(w: World, index: nat, providerFails: bool, draw: Draw)
    requires Safe(w) && Valid(w.tables) && index < |w.pending|
    ensures var w', p := Commit(w, index, providerFails, draw), w.pending[index];
            && (w'.tables == w.tables <==> WritesNothing(p, providerFails, draw))
            && (Valid(w'.tables) <==>
                WritesNothing(p, providerFails, draw) || Get(w.tables.envelopes, p.envelopeId).value.status == Sent)
  {
    var p, t, t' := w.pending[index], w.tables, Commit(w, index, providerFails, draw).tables;
    var r := Get(t.envelopes, p.envelopeId).value;
    assert Entry(p.envelopeId, r) in t.envelopes;
    match p
    case WebhookPending(id, status) =>
      if !WritesNothing(p, providerFails, draw) {
        WebhookCommits(t, r, status, draw);
        assert |t'.audit| > |t.audit|;
        if r.status == Sent {
          MoveKeepsValid(t, r, status, draw);
        } else {
          BrokenTrail(t, MovedRecord(r, status, draw), StatusEntry(id, status, draw), r);
        }
      } else if IsTerminal(status) {
        WebhookCommits(t, r, status, draw);
      }
    case RestartPending(id, owner) =>
      if !WritesNothing(p, providerFails, draw) {
        RestartAppends(t, r, owner, draw);
        assert |t'.audit| > |t.audit|;
        if r.status == Sent {
          PutKeepsValid(t, r, RestartEntry(id, owner, draw));
        } else {
          BrokenTrail(t, r, RestartEntry(id, owner, draw), r);
        }
      }
  }

  lemma RestartAppends(t: Tables, r: EnvelopeRecord, owner: string, draw: Draw)
    requires Get(t.envelopes, r.id) == Some(r) && draw.fault != Some(0)
    ensures Run(Writes(RestartOps(r.id, owner, draw), draw.fault), t).tables == Put(t, r, RestartEntry(r.id, owner, draw))
  {
    assert RestartOps(r.id, owner, draw)[1..] == [];
    assert Set(t.envelopes, r.id, r) == t.envelopes;
  }

  lemma BrokenTrail(t: Tables, r': EnvelopeRecord, a: AuditEntry, r: EnvelopeRecord)
    requires Valid(t) && Get(t.envelopes, r.id) == Some(r) && IsTerminal(r.status)
    requires r'.id == r.id && a.envelopeId == r.id
    ensures !Valid(Put(t, r', a))
  {
    var t' := Put(t, r', a);
    GetSet(t.envelopes, r.id, r', r.id);
    assert Entry(r.id, r') in t'.envelopes;
    DerivedBefore(t, r.id);
    DerivedAppend(t.audit, a, r.id);
  }

  // The commit this move makes, if any, writes nothing or finds its envelope `sent`.
  ghost predicate InTime(w: World, move: Move) {
    move.Commits? && move.index < |w.pending| ==>
      var p := w.pending[move.index];
      || WritesNothing(p, move.providerFails, move.draw)
      || (Get(w.tables.envelopes, p.envelopeId).Some? && Get(w.tables.envelopes, p.envelopeId).value.status == Sent)
  }

  ghost predicate AllInTime(w: World, moves: seq<Move>)
    decreases moves
  {
    moves != [] ==> InTime(w, moves[0]) && AllInTime(Next(w, moves[0]), moves[1..])
  }

  ghost predicate AlwaysValid(w: World, moves: seq<Move>)
    decreases moves
  {
    Valid(w.tables) && (moves != [] ==> AlwaysValid(Next(w, moves[0]), moves[1..]))
  }

  lemma {:induction false} MoveValidIffInTime(w: World, move: Move)
    requires Safe(w) && Valid(w.tables) && (move.Creates? ==> Fresh(w.tables, move.call))
    ensures Valid(Next(w, move).tables) <==> InTime(w, move)
  {
    match move
    case WebhookReads(event) => assert ReadWebhook(w, event).tables == w.tables;
    case RestartReads(user, envelopeId, recipient) =>
      assert ReadRestart(w, user, envelopeId, recipient).tables == w.tables;
    case Commits(index, providerFails, draw) =>
      if index < |w.pending| {
        CommitReplaysIffStillSent(w, index, providerFails, draw);
      }
    case Creates(call) =>
      if call.CreateEnvelopeCall? {
        CreateCallKeepsValid(w.tables, call);
      }
  }

  /** Over whole interleavings: the tables satisfy the sequential invariant at
      every point exactly when every commit writes nothing or finds its
      envelope `sent`. */
  lemma {:induction false} AlwaysValidIffInTime(w: World, moves: seq<Move>)
    requires Safe(w) && Valid(w.tables) && FreshMoves(w, moves)
    ensures AlwaysValid(w, moves) <==> AllInTime(w, moves)
    decreases moves
  {
    if moves != [] {
      var w' := Next(w, moves[0]);
      MoveValidIffInTime(w, moves[0]);
      NextKeepsSafe(w, moves[0]);
      if Valid(w'.tables) {
        AlwaysValidIffInTime(w', moves[1..]);
      } else {
        assert !AlwaysValid(w', moves[1..]);
      }
    }
  }

  // ---- When a terminal status is replaced ----

  ghost predicate LeavesTerminal(t: Tables, t': Tables, id: string) {
    match Get(t.envelopes, id)
    case Some(r) =>
      IsTerminal(r.status)
      && (Get(t'.envelopes, id).None? || Get(t'.envelopes, id).value.status != r.status)
    case None => false
  }

  // A webhook commit that writes, for an envelope that is terminal by then
  // with another status.
  ghost predicate Overwrites(w: World, move: Move, id: string) {
    && move.Commits? && move.index < |w.pending|
    && var p := w.pending[move.index];
    && p.WebhookPending? && p.envelopeId == id && !WritesNothing(p, move.providerFails, move.draw)
    && Get(w.tables.envelopes, id).Some?
    && IsTerminal(Get(w.tables.envelopes, id).value.status) && Get(w.tables.envelopes, id).value.status != p.status
  }

  lemma CommitLeavesTerminalIff(w: World, index: nat, providerFails: bool, draw: Draw, id: string)
    requires Safe(w) && index < |w.pending|
    ensures LeavesTerminal(w.tables, Commit(w, index, providerFails, draw).tables, id)
            <==> Overwrites(w, Commits(index, providerFails, draw), id)
  {
    var p := w.pending[index];
    assert p in w.pending;
    var r := Get(w.tables.envelopes, p.envelopeId).value;
    assert Entry(p.envelopeId, r) in w.tables.envelopes;
    match p
    case WebhookPending(_, status) =>
      if IsTerminal(status) {
        WebhookCommits(w.tables, r, status, draw);
        GetSet(w.tables.envelopes, r.id, MovedRecord(r, status, draw), id);
      }
    case RestartPending(_, owner) =>
      RestartWrites(w.tables, r, owner, draw);
      GetSet(w.tables.envelopes, r.id, r, id);
  }

  lemma CreateLeavesNoTerminal(t: Tables, call: Call, id: string)
    requires call.CreateEnvelopeCall? && Fresh(t, call)
    ensures !LeavesTerminal(t, Step(t, call).0, id)
  {
    CreateCallEffect(t, call);
    if HasUser(call.user) && call.provider.Ok? {
      var r := CreatedRecord(call.user.value, call.contractType, call.provider.value.envelopeId, call.draw);
      GetSet(t.envelopes, r.id, r, id);
    }
  }

  /** A move takes an envelope out of a terminal status exactly when it commits
      a webhook that writes and brings another status than the terminal one
      that is stored by then. */
  lemma MoveLeavesTerminalIff(w: World, move: Move, id: string)
    requires Safe(w) && (move.Creates? ==> Fresh(w.tables, move.call))
    ensures LeavesTerminal(w.tables, Next(w, move).tables, id) <==> Overwrites(w, move, id)
  {
    match move
    case WebhookReads(event) => assert ReadWebhook(w, event).tables == w.tables;
    case RestartReads(user, envelopeId, recipient) =>
      assert ReadRestart(w, user, envelopeId, recipient).tables == w.tables;
    case Commits(index, providerFails, draw) =>
      if index < |w.pending| {
        CommitLeavesTerminalIff(w, index, providerFails, draw, id);
      }
    case Creates(call) =>
      if call.CreateEnvelopeCall? {
        CreateLeavesNoTerminal(w.tables, call, id);
      }
  }

  // The first terminal status an envelope gets is the one it keeps.
  ghost predicate TerminalIsKept(w: World, moves: seq<Move>, id: string)
    decreases moves
  {
    moves != [] ==>
      !LeavesTerminal(w.tables, Next(w, moves[0]).tables, id) && TerminalIsKept(Next(w, moves[0]), moves[1..], id)
  }

  ghost predicate NeverOverwritten(w: World, moves: seq<Move>, id: string)
    decreases moves
  {
    moves != [] ==> !Overwrites(w, moves[0], id) && NeverOverwritten(Next(w, moves[0]), moves[1..], id)
  }

  /** Over whole interleavings: an envelope never leaves a terminal status
      exactly when no such commit is made for it. */
  lemma {:induction false} TerminalIsKeptIffNeverOverwritten(w: World, moves: seq<Move>, id: string)
    requires Safe(w) && FreshMoves(w, moves)
    ensures TerminalIsKept(w, moves, id) <==> NeverOverwritten(w, moves, id)
    decreases moves
  {
    if moves != [] {
      MoveLeavesTerminalIff(w, moves[0], id);
      NextKeepsSafe(w, moves[0]);
      TerminalIsKeptIffNeverOverwritten(Next(w, moves[0]), moves[1..], id);
    }
  }

  /** Two webhooks that both read while the envelope was `sent` both commit:
      the second overwrites the first one's status and the trail gains two
      terminal entries. */
  lemma BothWebhooksCommit(w: World, r: EnvelopeRecord, first: Status, second: Status, d1: Draw, d2: Draw)
    requires WellKeyed(w.tables) && w.pending == []
    requires GetByProviderId(w.tables.envelopes, r.providerEnvelopeId) == Some(r)
    requires r.status == Sent && IsTerminal(first) && IsTerminal(second) && d1.fault == None && d2.fault == None
    ensures var w' := Moves(w, BothCommit(r.providerEnvelopeId, first, second, d1, d2));
            && w'.updates == w.updates + [r.id, r.id]
            && Get(w'.tables.envelopes, r.id) == Some(r.(status := second, updatedAt := d2.at))
            && Trail(w'.tables.audit, r.id)
               == Trail(w.tables.audit, r.id) + [WebhookAuditAction(first), WebhookAuditAction(second)]
  {
    FoundById(w.tables, r.providerEnvelopeId);
    TwoReads(w, r, first, second);
    PendingWebhooksCommit(w.(pending := [WebhookPending(r.id, first), WebhookPending(r.id, second)]), r, first, second, d1, d2);
    var moves := BothCommit(r.providerEnvelopeId, first, second, d1, d2);
    var w2 := Next(Next(w, moves[0]), moves[1]);
    assert moves[1..][1..] == [moves[2], moves[3]] && [moves[2], moves[3]][1..] == [moves[3]] && [moves[3]][1..] == [];
    assert Moves(w, moves) == Moves(Next(w, moves[0]), moves[1..]) == Moves(w2, [moves[2], moves[3]]);
    assert Moves(w2, [moves[2], moves[3]]) == Moves(Next(w2, moves[2]), [moves[3]]) == Next(Next(w2, moves[2]), moves[3]);
  }

  // Both read, then both commit.
  function BothCommit(providerId: string, first: Status, second: Status, d1: Draw, d2: Draw): seq<Move> {
    [WebhookReads(WebhookEvent(providerId, Some(first))), WebhookReads(WebhookEvent(providerId, Some(second))),
     Commits(0, false, d1), Commits(0, false, d2)]
  }

  /** From the empty store one create and two such webhooks are enough for a
      trail with two terminal entries, which replays to no status. */
  lemma TwoTerminalEntriesFromEmpty(call: Call, first: Status, second: Status, d1: Draw, d2: Draw)
    requires call.CreateEnvelopeCall? && Step(EMPTY_WORLD.tables, call).1.Created?
    requires IsTerminal(first) && IsTerminal(second) && d1.fault == None && d2.fault == None
    ensures var moves := [Creates(call)] + BothCommit(call.provider.value.envelopeId, first, second, d1, d2);
            var t := Moves(EMPTY_WORLD, moves).tables;
            && FreshMoves(EMPTY_WORLD, moves)
            && Trail(t.audit, call.draw.id) == [Initiated, WebhookAuditAction(first), WebhookAuditAction(second)]
            && !TrailsReplay(t)
  {
    var r := CreatedFromEmpty(call);
    var both := BothCommit(r.providerEnvelopeId, first, second, d1, d2);
    assert ([Creates(call)] + both)[1..] == both;
    TwoTerminalEntries(Next(EMPTY_WORLD, Creates(call)), r, first, second, d1, d2);
  }

  lemma TwoTerminalEntries(w: World, r: EnvelopeRecord, first: Status, second: Status, d1: Draw, d2: Draw)
    requires WellKeyed(w.tables) && w.pending == [] && Trail(w.tables.audit, r.id) == [Initiated]
    requires GetByProviderId(w.tables.envelopes, r.providerEnvelopeId) == Some(r)
    requires r.status == Sent && IsTerminal(first) && IsTerminal(second) && d1.fault == None && d2.fault == None
    ensures var both := BothCommit(r.providerEnvelopeId, first, second, d1, d2);
            var t := Moves(w, both).tables;
            && FreshMoves(w, both) && !TrailsReplay(t)
            && Trail(t.audit, r.id) == [Initiated, WebhookAuditAction(first), WebhookAuditAction(second)]
  {
    var both := BothCommit(r.providerEnvelopeId, first, second, d1, d2);
    BothWebhooksCommit(w, r, first, second, d1, d2);
    NoCreatesAreFresh(w, both);
    TwoTerminalsAreImpossible(WebhookAuditAction(first), WebhookAuditAction(second));
    var t, r' := Moves(w, both).tables, r.(status := second, updatedAt := d2.at);
    assert Trail(t.audit, r'.id) == [Initiated, WebhookAuditAction(first), WebhookAuditAction(second)];
    NotReplayed(t, r');
  }

  lemma CreatedFromEmpty(call: Call) returns (r: EnvelopeRecord)
    requires call.CreateEnvelopeCall? && Step(EMPTY_WORLD.tables, call).1.Created?
    ensures r == CreatedRecord(call.user.value, call.contractType, call.provider.value.envelopeId, call.draw)
    ensures var w := Next(EMPTY_WORLD, Creates(call));
            && WellKeyed(w.tables) && w.pending == []
            && GetByProviderId(w.tables.envelopes, r.providerEnvelopeId) == Some(r)
            && Trail(w.tables.audit, r.id) == [Initiated]
  {
    r := CreatedRecord(call.user.value, call.contractType, call.provider.value.envelopeId, call.draw);
    var a := CreatedEntry(call.user.value, call.contractType, call.draw);
    CreatedPuts(EMPTY_WORLD.tables, call.user, call.contractType, call.recipient, call.provider, call.draw);
    OneEnvelope(r, a);
  }

  lemma CreatedPuts(
    t: Tables, user: Option<string>, contractType: string, recipient: Recipient,
    provider: Result<ProviderEnvelope, string>, draw: Draw)
    requires DoCreateEnvelope(t, user, contractType, recipient, provider, draw).1.Created?
    ensures DoCreateEnvelope(t, user, contractType, recipient, provider, draw).0
            == Put(t, CreatedRecord(user.value, contractType, provider.value.envelopeId, draw),
                   CreatedEntry(user.value, contractType, draw))
  {
    CreateCommits(t, user.value, contractType, provider.value.envelopeId, draw);
  }

  lemma OneEnvelope(r: EnvelopeRecord, a: AuditEntry)
    requires a.envelopeId == r.id
    ensures var t := Put(Tables([], []), r, a);
            && WellKeyed(t) && GetByProviderId(t.envelopes, r.providerEnvelopeId) == Some(r)
            && Trail(t.audit, r.id) == [a.action]
  {
    assert Put(Tables([], []), r, a).envelopes == [Entry(r.id, r)];
    TrailAppend([], a, r.id);
  }

  lemma NotReplayed(t: Tables, r: EnvelopeRecord)
    requires Get(t.envelopes, r.id) == Some(r) && Derived(t.audit, r.id) == Impossible
    ensures !TrailsReplay(t)
  {
    GetMember(t.envelopes, r.id);
    assert Entry(r.id, r) in t.envelopes;
  }

  lemma TwoTerminalsAreImpossible(a: AuditAction, b: AuditAction)
    requires IsTerminalAction(a)
    ensures Replay([Initiated, a, b]) == Impossible
  {
    assert [Initiated, a, b][..2] == [Initiated, a] && [Initiated, a][..1] == [Initiated] && [Initiated][..0] == [];
  }

  lemma {:induction false} NoCreatesAreFresh(w: World, moves: seq<Move>)
    requires forall m :: m in moves ==> !m.Creates?
    ensures FreshMoves(w, moves)
    decreases moves
  {
    if moves != [] {
      assert moves[0] in moves && forall m :: m in moves[1..] ==> m in moves;
      NoCreatesAreFresh(Next(w, moves[0]), moves[1..]);
    }
  }

  lemma TwoReads(w: World, r: EnvelopeRecord, first: Status, second: Status)
    requires w.pending == [] && GetByProviderId(w.tables.envelopes, r.providerEnvelopeId) == Some(r)
    requires r.status == Sent && IsTerminal(first) && IsTerminal(second)
    ensures ReadWebhook(ReadWebhook(w, WebhookEvent(r.providerEnvelopeId, Some(first))),
                        WebhookEvent(r.providerEnvelopeId, Some(second)))
            == w.(pending := [WebhookPending(r.id, first), WebhookPending(r.id, second)])
  {
    assert ReadWebhook(w, WebhookEvent(r.providerEnvelopeId, Some(first)))
        == w.(pending := [WebhookPending(r.id, first)]);
  }

  lemma PendingWebhooksCommit(w: World, r: EnvelopeRecord, first: Status, second: Status, d1: Draw, d2: Draw)
    requires w.pending == [WebhookPending(r.id, first), WebhookPending(r.id, second)]
    requires Get(w.tables.envelopes, r.id) == Some(r)
    requires IsTerminal(first) && IsTerminal(second) && d1.fault == None && d2.fault == None
    ensures var w' := Commit(Commit(w, 0, false, d1), 0, false, d2);
            && w'.updates == w.updates + [r.id, r.id]
            && Get(w'.tables.envelopes, r.id) == Some(r.(status := second, updatedAt := d2.at))
            && Trail(w'.tables.audit, r.id)
               == Trail(w.tables.audit, r.id) + [WebhookAuditAction(first), WebhookAuditAction(second)]
  {
    var r1 := MovedRecord(r, first, d1);
    WebhookCommitWorld(w, 0, r, d1);
    TrailAppend(w.tables.audit, StatusEntry(r.id, first, d1), r.id);
    TrailAppend(w.tables.audit + [StatusEntry(r.id, first, d1)], StatusEntry(r.id, second, d2), r.id);
    Associative(Trail(w.tables.audit, r.id), [WebhookAuditAction(first)], [WebhookAuditAction(second)]);
    GetSet(w.tables.envelopes, r.id, r1, r.id);
    var w1 := Commit(w, 0, false, d1);
    assert w1.pending == [WebhookPending(r.id, second)];
    WebhookCommitWorld(w1, 0, r1, d2);
    GetSet(w1.tables.envelopes, r.id, MovedRecord(r1, second, d2), r.id);
  }
}
