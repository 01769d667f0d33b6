/**
 The in-memory envelope store (packages/esign-node/src/store.ts): two tables,
 single writes, and transactions that snapshot both tables and put the
 snapshots back when the callback throws.

 A callback is a Script: any program over the store whose writes and branches
 may depend on what it reads, that may throw, catch, and open transactions
 inside transactions. The methods of MemoryStore work on the mutable tables
 and are proved equal to Run, the value-level meaning of a script.
 */
module EnvelopeStore {
  import opened Common
  import opened JsCollections

  datatype Status = Sent | Completed | Voided | Declined

  datatype AuditAction =
    | Initiated
    | CompletedAction
    | FailedAction
    | VoidedAction
    | DeclinedAction
    | SessionRestart
    | CreationFailed

  // The keys audit metadata may carry, and any other key a caller passes.
  datatype MetadataKey = ContractTypeKey | UserIdKey | SourceKey | ErrorCodeKey | OtherKey(name: string)

  type Metadata = map<MetadataKey, string>

  datatype EnvelopeRecord = EnvelopeRecord(
    id: string,
    providerEnvelopeId: string,
    userId: string,
    contractType: string,
    status: Status,
    createdAt: int,
    updatedAt: int)

  datatype NewEnvelope = NewEnvelope(
    id: string,
    providerEnvelopeId: string,
    userId: string,
    contractType: string,
    status: Status)

  datatype NewAuditEntry = NewAuditEntry(
    id: string,
    envelopeId: string,
    action: AuditAction,
    metadata: Metadata)

  datatype AuditEntry = AuditEntry(
    id: string,
    envelopeId: string,
    action: AuditAction,
    timestamp: int,
    metadata: Metadata)

  datatype Tables = Tables(envelopes: Entries<string, EnvelopeRecord>, audit: seq<AuditEntry>)

  // ---- Single operations ----

  // `at` is what the store's clock answers during the write.
  datatype Op =
    | CreateEnvelope(data: NewEnvelope, at: int)
    | UpdateStatus(id: string, status: Status, at: int)
    | AppendAudit(entry: NewAuditEntry, at: int)

  function RecordOf(data: NewEnvelope, at: int): EnvelopeRecord {
    EnvelopeRecord(data.id, data.providerEnvelopeId, data.userId, data.contractType, data.status, at, at)
  }

  function EntryOf(entry: NewAuditEntry, at: int): AuditEntry {
    AuditEntry(entry.id, entry.envelopeId, entry.action, at, entry.metadata)
  }

  // The tables after one write, or None when the write throws.
  function Apply(op: Op, t: Tables): Option<Tables> {
    match op
    case CreateEnvelope(data, at) => Some(t.(envelopes := Set(t.envelopes, data.id, RecordOf(data, at))))
    case UpdateStatus(id, status, at) =>
      (match Get(t.envelopes, id)
       case None => None
       case Some(r) => Some(t.(envelopes := Set(t.envelopes, id, r.(status := status, updatedAt := at)))))
    case AppendAudit(entry, at) => Some(t.(audit := t.audit + [EntryOf(entry, at)]))
  }

  function GetByIdForUser(t: Tables, id: string, userId: string): Option<EnvelopeRecord> {
    match Get(t.envelopes, id)
    case Some(r) => if r.userId == userId then Some(r) else None
    case None => None
  }

  // The first record, in insertion order, with this provider id.
  function GetByProviderId(m: Entries<string, EnvelopeRecord>, providerId: string): Option<EnvelopeRecord> {
    if m == [] then None
    else if m[0].value.providerEnvelopeId == providerId then Some(m[0].value)
    else GetByProviderId(m[1..], providerId)
  }

  lemma {:induction false} ProviderIdMember(m: Entries<string, EnvelopeRecord>, providerId: string)
    ensures match GetByProviderId(m, providerId)
            case Some(r) => r.providerEnvelopeId == providerId && exists i :: 0 <= i < |m| && m[i].value == r
            case None => forall e :: e in m ==> e.value.providerEnvelopeId != providerId
  {
    if m != [] && m[0].value.providerEnvelopeId != providerId {
      ProviderIdMember(m[1..], providerId);
    }
  }

  function Reverse<T>(s: seq<T>): (r: seq<T>)
    ensures |r| == |s| && forall i :: 0 <= i < |s| ==> r[i] == s[|s| - 1 - i]
  {
    if s == [] then [] else Reverse(s[1..]) + [s[0]]
  }

  // One envelope's audit entries, oldest first.
  function EntriesOf(audit: seq<AuditEntry>, envelopeId: string): seq<AuditEntry> {
    Filter(audit, (e: AuditEntry) => e.envelopeId == envelopeId)
  }

  lemma EntriesAppend(audit: seq<AuditEntry>, e: AuditEntry, id: string)
    ensures EntriesOf(audit + [e], id) == if e.envelopeId == id then EntriesOf(audit, id) + [e] else EntriesOf(audit, id)
  {
    var keep := (x: AuditEntry) => x.envelopeId == id;
    FilterConcat(audit, [e], keep);
    FilterCons(e, [], keep);
    assert EntriesOf(audit, id) + [] == EntriesOf(audit, id);
  }

  // Newest first, as the store lists them.
  function ListAudit(t: Tables, envelopeId: string): seq<AuditEntry> {
    Reverse(EntriesOf(t.audit, envelopeId))
  }

  // ---- Scripts and their meaning ----

  datatype Script =
    | Return
    | Throw
    | Write(op: Tables -> Op)
    | Branch(test: Tables -> bool, yes: Script, no: Script)
    | Seq(first: Script, second: Script)
    | Catch(body: Script, handler: Script)
    | Transaction(callback: Script)

  datatype Outcome = Outcome(tables: Tables, threw: bool)

  function Run(s: Script, t: Tables): Outcome {
    match s
    case Return => Outcome(t, false)
    case Throw => Outcome(t, true)
    case Write(op) =>
      (match Apply(op(t), t) case Some(t') => Outcome(t', false) case None => Outcome(t, true))
    case Branch(test, yes, no) => if test(t) then Run(yes, t) else Run(no, t)
    case Seq(first, second) =>
      var r := Run(first, t);
      if r.threw then r else Run(second, r.tables)
    case Catch(body, handler) =>
      var r := Run(body, t);
      if r.threw then Run(handler, r.tables) else r
    case Transaction(callback) =>
      var r := Run(callback, t);
      if r.threw then Outcome(t, true) else r
  }

  // ---- The mutable store ----

  class MemoryStore {
    var envelopes: OrderedMap<string, EnvelopeRecord>
    var audit: GrowableArray<AuditEntry>

    function Contents(): Tables
      reads this, envelopes, audit
    {
      Tables(envelopes.entries, audit.items)
    }

    constructor ()
      ensures fresh(envelopes) && fresh(audit)
      ensures Contents() == Tables([], [])
    {
      envelopes := new OrderedMap();
      audit := new GrowableArray();
    }

    method Perform(op: Op) returns (threw: bool)
      modifies envelopes, audit
      ensures Outcome(Contents(), threw) == Run(Write(_ => op), old(Contents()))
    {
      threw := false;
      match op
      case CreateEnvelope(data, at) =>
        envelopes.Put(data.id, RecordOf(data, at));
      case UpdateStatus(id, status, at) =>
        var record := Get(envelopes.entries, id);
        if record == None {
          threw := true;
        } else {
          envelopes.Put(id, record.value.(status := status, updatedAt := at));
        }
      case AppendAudit(entry, at) =>
        audit.Push(EntryOf(entry, at));
    }

    // Run a callback against this store. A rollback replaces the two
    // collections by their snapshots, so they are either the old objects or
    // new ones.
    method Execute(s: Script) returns (threw: bool)
      modifies this, envelopes, audit
      ensures envelopes == old(envelopes) || fresh(envelopes)
      ensures audit == old(audit) || fresh(audit)
      ensures Outcome(Contents(), threw) == Run(s, old(Contents()))
      decreases s, 0
    {
      match s
      case Return => threw := false;
      case Throw => threw := true;
      case Write(op) => threw := Perform(op(Contents()));
      case Branch(test, yes, no) =>
        if test(Contents()) {
          threw := Execute(yes);
        } else {
          threw := Execute(no);
        }
      case Seq(first, second) =>
        threw := Execute(first);
        if !threw {
          threw := Execute(second);
        }
      case Catch(body, handler) =>
        threw := Execute(body);
        if threw {
          threw := Execute(handler);
        }
      case Transaction(callback) => threw := RunTransaction(callback);
    }

    method RunTransaction(callback: Script) returns (threw: bool)
      modifies this, envelopes, audit
      ensures envelopes == old(envelopes) || fresh(envelopes)
      ensures audit == old(audit) || fresh(audit)
      ensures Outcome(Contents(), threw) == Run(Transaction(callback), old(Contents()))
      ensures threw ==> Contents() == old(Contents())
      ensures !threw ==> Outcome(Contents(), false) == Run(callback, old(Contents()))
      decreases callback, 1
    {
      var envelopesBefore := new OrderedMap.CopyOf(envelopes.entries);
      var auditBefore := new GrowableArray.CopyOf(audit.items);
      threw := Execute(callback);
      if threw {
        envelopes := envelopesBefore;
        audit := auditBefore;
      }
    }
  }

  // ---- What a run amounts to ----

  // The writes of a run that are still there at its end: everything written,
  // except what a transaction that threw had written inside it.
  function Surviving(s: Script, t: Tables): seq<Op> {
    match s
    case Return => []
    case Throw => []
    case Write(op) => if Apply(op(t), t).Some? then [op(t)] else []
    case Branch(test, yes, no) => if test(t) then Surviving(yes, t) else Surviving(no, t)
    case Seq(first, second) =>
      var r := Run(first, t);
      Surviving(first, t) + if r.threw then [] else Surviving(second, r.tables)
    case Catch(body, handler) =>
      var r := Run(body, t);
      Surviving(body, t) + if r.threw then Surviving(handler, r.tables) else []
    case Transaction(callback) => if Run(callback, t).threw then [] else Surviving(callback, t)
  }

  // Plain writes one after another, with no transaction anywhere.
  function ApplyAll(ops: seq<Op>, t: Tables): Option<Tables> {
    if ops == [] then Some(t)
    else match Apply(ops[0], t) case None => None case Some(t') => ApplyAll(ops[1..], t')
  }

  lemma {:induction false} ApplyAllConcat(a: seq<Op>, b: seq<Op>, t: Tables)
    requires ApplyAll(a, t).Some?
    ensures ApplyAll(a + b, t) == ApplyAll(b, ApplyAll(a, t).value)
  {
    if a == [] {
      assert a + b == b;
    } else {
      assert (a + b)[1..] == a[1..] + b;
      ApplyAllConcat(a[1..], b, Apply(a[0], t).value);
    }
  }

  /** Every run, however its transactions nest, throw and are caught, leaves
      exactly the tables that performing its surviving writes directly leaves. */
  lemma {:induction false} RunIsItsSurvivingWrites(s: Script, t: Tables)
    ensures ApplyAll(Surviving(s, t), t) == Some(Run(s, t).tables)
  {
    match s
    case Return =>
    case Throw =>
    case Write(op) =>
      if Apply(op(t), t).Some? {
        assert [op(t)][1..] == [];
      }
    case Branch(test, yes, no) =>
      RunIsItsSurvivingWrites(if test(t) then yes else no, t);
    case Seq(first, second) =>
      RunIsItsSurvivingWrites(first, t);
      var r := Run(first, t);
      if r.threw {
        assert Surviving(s, t) == Surviving(first, t);
      } else {
        RunIsItsSurvivingWrites(second, r.tables);
        ApplyAllConcat(Surviving(first, t), Surviving(second, r.tables), t);
      }
    case Catch(body, handler) =>
      RunIsItsSurvivingWrites(body, t);
      var r := Run(body, t);
      if r.threw {
        RunIsItsSurvivingWrites(handler, r.tables);
        ApplyAllConcat(Surviving(body, t), Surviving(handler, r.tables), t);
      } else {
        assert Surviving(s, t) == Surviving(body, t);
      }
    case Transaction(callback) => RunIsItsSurvivingWrites(callback, t);
  }

  // The same program with every transaction replaced by its bare callback.
  function WithoutTransactions(s: Script): Script {
    match s
    case Branch(test, yes, no) => Branch(test, WithoutTransactions(yes), WithoutTransactions(no))
    case Seq(first, second) => Seq(WithoutTransactions(first), WithoutTransactions(second))
    case Catch(body, handler) => Catch(WithoutTransactions(body), WithoutTransactions(handler))
    case Transaction(callback) => WithoutTransactions(callback)
    case _ => s
  }

  // No transaction entered during this run throws.
  ghost predicate AllCommit(s: Script, t: Tables) {
    match s
    case Branch(test, yes, no) => if test(t) then AllCommit(yes, t) else AllCommit(no, t)
    case Seq(first, second) =>
      AllCommit(first, t) && (!Run(first, t).threw ==> AllCommit(second, Run(first, t).tables))
    case Catch(body, handler) =>
      AllCommit(body, t) && (Run(body, t).threw ==> AllCommit(handler, Run(body, t).tables))
    case Transaction(callback) => AllCommit(callback, t) && !Run(callback, t).threw
    case _ => true
  }

  /** A run in which every transaction returns normally is the run of the same
      writes with no transactions at all. */
  lemma {:induction false} CommittedRunIsDirect(s: Script, t: Tables)
    requires AllCommit(s, t)
    ensures Run(s, t) == Run(WithoutTransactions(s), t)
  {
    match s
    case Branch(test, yes, no) => CommittedRunIsDirect(if test(t) then yes else no, t);
    case Seq(first, second) =>
      CommittedRunIsDirect(first, t);
      if !Run(first, t).threw {
        CommittedRunIsDirect(second, Run(first, t).tables);
      }
    case Catch(body, handler) =>
      CommittedRunIsDirect(body, t);
      if Run(body, t).threw {
        CommittedRunIsDirect(handler, Run(body, t).tables);
      }
    case Transaction(callback) => CommittedRunIsDirect(callback, t);
    case _ =>
  }

  /** After a write, a new or moved record is found under its id, a moved one
      with its first timestamp, and no other id is affected; only moving an
      unknown envelope throws. */
  lemma RecordsSeeWrites(op: Op, t: Tables, id: string)
    ensures Apply(op, t).None? <==> op.UpdateStatus? && Get(t.envelopes, op.id).None?
    ensures Apply(op, t).Some? ==>
              Get(Apply(op, t).value.envelopes, id) == match op
                case CreateEnvelope(data, at) =>
                  if data.id == id then Some(RecordOf(data, at)) else Get(t.envelopes, id)
                case UpdateStatus(moved, status, at) =>
                  if moved == id then Some(Get(t.envelopes, id).value.(status := status, updatedAt := at))
                  else Get(t.envelopes, id)
                case AppendAudit(_, _) => Get(t.envelopes, id)
  {
    match op
    case CreateEnvelope(data, at) => GetSet(t.envelopes, data.id, RecordOf(data, at), id);
    case UpdateStatus(moved, status, at) =>
      if Get(t.envelopes, moved).Some? {
        GetSet(t.envelopes, moved, Get(t.envelopes, moved).value.(status := status, updatedAt := at), id);
      }
    case AppendAudit(_, _) =>
  }

  /** An appended entry comes first in its own envelope's list and is in no
      other; the other writes touch no list. */
  lemma ListsSeeWrites(op: Op, t: Tables, id: string)
    requires Apply(op, t).Some?
    ensures ListAudit(Apply(op, t).value, id)
            == (if op.AppendAudit? && op.entry.envelopeId == id then [EntryOf(op.entry, op.at)] else []) + ListAudit(t, id)
  {
    if op.AppendAudit? {
      EntriesAppend(t.audit, EntryOf(op.entry, op.at), id);
      ReverseAppend(EntriesOf(t.audit, id), EntryOf(op.entry, op.at));
    }
  }

  lemma ReverseAppend(entries: seq<AuditEntry>, e: AuditEntry)
    ensures Reverse(entries + [e]) == [e] + Reverse(entries)
  {
  }
}
