/**
 Transactions of the in-memory store that overlap
 (packages/esign-node/src/store.ts, 71-83). Every step between two awaits is
 an event, and any number of calls take turns: a transaction begins by copying
 both tables, its writes go to the shared tables, and if it throws its copies
 replace them. Transactions here belong to different calls; those a callback
 opens inside itself are in EnvelopeStore.

 The reference is a database, in which a thrown transaction takes back its own
 writes and no others.
 */
module Overlap {
  import opened Common
  import opened JsCollections
  import opened EnvelopeStore

  // A write is made by an open transaction or, with `writer` None, outside any.
  datatype Event =
    | Begins(tx: nat)
    | Writes(writer: Option<nat>, op: Op)
    | Returns(tx: nat)
    | Throws(tx: nat)

  datatype Written = Written(writer: Option<nat>, op: Op)

  // What an open transaction copied, and how things stood when it did.
  datatype Mark = Mark(tables: Tables, standing: seq<Written>, count: nat, thrown: set<nat>)

  // `tables` and the marks' tables are the store's own variables. The rest
  // records what happened: every write that did not throw, in order
  // (`written`); those whose effect is in the tables (`standing`); which
  // transactions began and which threw.
  datatype Shared = Shared(
    tables: Tables,
    running: map<nat, Mark>,
    standing: seq<Written>,
    written: seq<Written>,
    begun: set<nat>,
    thrown: set<nat>)

  function Start(t: Tables): Shared {
    Shared(t, map[], [], [], {}, {})
  }

  // A transaction begins once, and has no events outside its span.
  function Next(s: Shared, e: Event): Shared {
    match e
    case Begins(tx) =>
      if tx in s.begun then s
      else s.(running := s.running[tx := Mark(s.tables, s.standing, |s.written|, s.thrown)], begun := s.begun + {tx})
    case Writes(writer, op) =>
      if writer.Some? && writer.value !in s.running then s
      else
        (match Apply(op, s.tables)
         case None => s
         case Some(t') =>
           s.(tables := t', standing := s.standing + [Written(writer, op)], written := s.written + [Written(writer, op)]))
    case Returns(tx) => s.(running := s.running - {tx})
    case Throws(tx) =>
      if tx !in s.running then s
      else
        var mark := s.running[tx];
        s.(tables := mark.tables, standing := mark.standing, running := s.running - {tx}, thrown := s.thrown + {tx})
  }

  function Play(s: Shared, events: seq<Event>): Shared
    decreases events
  {
    if events == [] then s else Play(Next(s, events[0]), events[1..])
  }

  /** What each event does to the tables: a begin and a return leave them, a
      throw puts the copies back, and a write goes to them, whether it is made
      inside a transaction or outside any. A transaction that has ended, or has
      begun before, can do nothing more. */
  lemma EventsReachTheTables(s: Shared, tx: nat, op: Op)
    requires tx !in s.begun && forall other :: other in s.running ==> other in s.begun
    ensures var began := Next(s, Begins(tx));
            var wrote, returned, threw := Next(began, Writes(Some(tx), op)), Next(began, Returns(tx)), Next(began, Throws(tx));
            var after := if Apply(op, s.tables).Some? then Apply(op, s.tables).value else s.tables;
            && began.tables == returned.tables == threw.tables == s.tables
            && Next(s, Writes(None, op)).tables == wrote.tables == after
            && Next(wrote, Throws(tx)).tables == s.tables && Next(wrote, Returns(tx)).tables == after
            && (forall ended :: ended in {returned, threw} ==>
                  Next(ended, Begins(tx)) == Next(ended, Writes(Some(tx), op)) == Next(ended, Throws(tx)) == ended)
  {
  }

  // ---- The tables are those of the standing writes ----

  function OpsOf(ws: seq<Written>): seq<Op> {
    Map(ws, (w: Written) => w.op)
  }

  ghost predicate Founded(t: Tables, s: Shared) {
    && ApplyAll(OpsOf(s.standing), t) == Some(s.tables)
    && forall tx :: tx in s.running ==> ApplyAll(OpsOf(s.running[tx].standing), t) == Some(s.running[tx].tables)
  }

  lemma NextKeepsFounded(t: Tables, s: Shared, e: Event)
    requires Founded(t, s)
    ensures Founded(t, Next(s, e))
  {
    if e.Writes? {
      match Apply(e.op, s.tables)
      case None =>
      case Some(t') =>
        assert OpsOf(s.standing + [Written(e.writer, e.op)]) == OpsOf(s.standing) + [e.op];
        ApplyAllConcat(OpsOf(s.standing), [e.op], t);
        assert [e.op][1..] == [];
    }
  }

  /** However transactions overlap, the tables are those of performing the
      standing writes directly. */
  lemma {:induction false} TablesAreStandingWrites(t: Tables, s: Shared, events: seq<Event>)
    requires Founded(t, s)
    ensures Founded(t, Play(s, events))
    decreases events
  {
    if events != [] {
      NextKeepsFounded(t, s, events[0]);
      TablesAreStandingWrites(t, Next(s, events[0]), events[1..]);
    }
  }

  // ---- When they are the ones a database would keep ----

  predicate Undone(w: Written, thrown: set<nat>) {
    w.writer.Some? && w.writer.value in thrown
  }

  // Which writes one looks at: all of them, or the audit appends.
  predicate Any(op: Op) {
    true
  }

  predicate Appends(op: Op) {
    op.AppendAudit?
  }

  function Of(ws: seq<Written>, kind: Op -> bool): seq<Written> {
    Filter(ws, (w: Written) => kind(w.op))
  }

  // What a database keeps of them: all but those of thrown transactions.
  function Kept(written: seq<Written>, thrown: set<nat>, kind: Op -> bool): seq<Written> {
    Filter(written, (w: Written) => kind(w.op) && !Undone(w, thrown))
  }

  ghost predicate LikeADatabase(s: Shared, kind: Op -> bool) {
    Of(s.standing, kind) == Kept(s.written, s.thrown, kind)
  }

  // The writes made before and since a transaction began.
  function Before(s: Shared, mark: Mark): seq<Written> {
    if mark.count <= |s.written| then s.written[..mark.count] else s.written
  }

  function Since(s: Shared, mark: Mark): seq<Written> {
    if mark.count <= |s.written| then s.written[mark.count..] else []
  }

  // Every write another call made since the transaction began belongs to a
  // transaction that has thrown by now, and no transaction that had written
  // before that has thrown since.
  ghost predicate Isolated(s: Shared, tx: nat, kind: Op -> bool)
    requires tx in s.running
  {
    var mark := s.running[tx];
    && (forall w :: w in Since(s, mark) && kind(w.op) ==> w.writer == Some(tx) || Undone(w, s.thrown))
    && (forall w :: w in Before(s, mark) && kind(w.op) && Undone(w, s.thrown) ==> Undone(w, mark.thrown))
  }

  ghost predicate AlwaysLikeADatabase(s: Shared, events: seq<Event>, kind: Op -> bool)
    decreases events
  {
    LikeADatabase(s, kind) && (events != [] ==> AlwaysLikeADatabase(Next(s, events[0]), events[1..], kind))
  }

  ghost predicate EveryThrowIsolated(s: Shared, events: seq<Event>, kind: Op -> bool)
    decreases events
  {
    events != [] ==>
      && (events[0].Throws? && events[0].tx in s.running ==> Isolated(s, events[0].tx, kind))
      && EveryThrowIsolated(Next(s, events[0]), events[1..], kind)
  }

  ghost predicate MarkRecorded(s: Shared, tx: nat, mark: Mark, kind: Op -> bool) {
    && mark.count <= |s.written| && mark.thrown <= s.thrown
    && Of(mark.standing, kind) == Kept(Before(s, mark), mark.thrown, kind)
    && forall w :: w in Before(s, mark) ==> w.writer != Some(tx)
  }

  ghost predicate Recorded(s: Shared, kind: Op -> bool) {
    && s.thrown <= s.begun
    && (forall w :: w in s.written && w.writer.Some? ==> w.writer.value in s.begun)
    && forall tx :: tx in s.running ==> tx in s.begun && tx !in s.thrown && MarkRecorded(s, tx, s.running[tx], kind)
  }

  lemma SelectedMembers(ws: seq<Written>, written: seq<Written>, thrown: set<nat>, kind: Op -> bool)
    ensures forall w :: w in Of(ws, kind) <==> w in ws && kind(w.op)
    ensures forall w :: w in Kept(written, thrown, kind) <==> w in written && kind(w.op) && !Undone(w, thrown)
  {
    FilterMembers(ws, (w: Written) => kind(w.op));
    FilterMembers(written, (w: Written) => kind(w.op) && !Undone(w, thrown));
  }

  lemma OfAppend(ws: seq<Written>, w: Written, kind: Op -> bool)
    ensures Of(ws + [w], kind) == Of(ws, kind) + if kind(w.op) then [w] else []
  {
    FilterConcat(ws, [w], (x: Written) => kind(x.op));
    FilterCons(w, [], (x: Written) => kind(x.op));
  }

  lemma OfAny(ws: seq<Written>, kind: Op -> bool)
    requires forall w :: w in ws ==> kind(w.op)
    ensures Of(ws, kind) == ws
  {
    FilterIdempotent(ws, (w: Written) => kind(w.op));
  }

  lemma KeptAppend(written: seq<Written>, w: Written, thrown: set<nat>, kind: Op -> bool)
    requires !Undone(w, thrown)
    ensures Kept(written + [w], thrown, kind) == Kept(written, thrown, kind) + if kind(w.op) then [w] else []
  {
    FilterConcat(written, [w], (x: Written) => kind(x.op) && !Undone(x, thrown));
    FilterCons(w, [], (x: Written) => kind(x.op) && !Undone(x, thrown));
  }

  lemma WriteKeepsRecorded(s: Shared, writer: Option<nat>, op: Op, kind: Op -> bool)
    requires Recorded(s, kind) && LikeADatabase(s, kind)
    ensures Recorded(Next(s, Writes(writer, op)), kind) && LikeADatabase(Next(s, Writes(writer, op)), kind)
  {
    var s' := Next(s, Writes(writer, op));
    if s'.written != s.written {
      OfAppend(s.standing, Written(writer, op), kind);
      KeptAppend(s.written, Written(writer, op), s.thrown, kind);
      forall tx | tx in s'.running ensures MarkRecorded(s', tx, s'.running[tx], kind) {
        assert MarkRecorded(s, tx, s.running[tx], kind);
        assert Before(s', s.running[tx]) == Before(s, s.running[tx]);
      }
    }
  }

  lemma ThrowKeepsRecorded(s: Shared, tx: nat, kind: Op -> bool)
    requires Recorded(s, kind)
    ensures Recorded(Next(s, Throws(tx)), kind)
  {
    var s' := Next(s, Throws(tx));
    forall other | other in s'.running ensures MarkRecorded(s', other, s'.running[other], kind) {
      assert MarkRecorded(s, other, s.running[other], kind);
    }
  }

  lemma BeginKeepsRecorded(s: Shared, tx: nat, kind: Op -> bool)
    requires Recorded(s, kind) && LikeADatabase(s, kind)
    ensures Recorded(Next(s, Begins(tx)), kind) && LikeADatabase(Next(s, Begins(tx)), kind)
  {
    var s' := Next(s, Begins(tx));
    assert s.written[..|s.written|] == s.written;
    forall other | other in s'.running ensures MarkRecorded(s', other, s'.running[other], kind) {
      if other in s.running {
        assert MarkRecorded(s, other, s.running[other], kind);
      }
    }
  }

  lemma NextKeepsRecorded(s: Shared, e: Event, kind: Op -> bool)
    requires Recorded(s, kind) && LikeADatabase(s, kind)
    ensures Recorded(Next(s, e), kind)
    ensures !e.Throws? ==> LikeADatabase(Next(s, e), kind)
  {
    match e
    case Begins(tx) => BeginKeepsRecorded(s, tx, kind);
    case Writes(writer, op) => WriteKeepsRecorded(s, writer, op, kind);
    case Returns(_) =>
    case Throws(tx) => ThrowKeepsRecorded(s, tx, kind);
  }

  // What is kept of a + b is what was kept of a exactly when all of b is
  // undone and nothing more of a.
  lemma KeptOfMore(a: seq<Written>, b: seq<Written>, before: set<nat>, after: set<nat>, kind: Op -> bool)
    requires before <= after
    ensures Kept(a + b, after, kind) == Kept(a, before, kind)
            <==> (forall w :: w in b && kind(w.op) ==> Undone(w, after))
                 && (forall w :: w in a && kind(w.op) && Undone(w, after) ==> Undone(w, before))
  {
    var p, q := (w: Written) => kind(w.op) && !Undone(w, before), (w: Written) => kind(w.op) && !Undone(w, after);
    assert forall w :: Undone(w, before) ==> Undone(w, after);
    FilterConcat(a, b, q);
    FilterTwice(a, p, q);
    FilterMembers(a, p);
    FilterMembers(a + b, q);
    if Filter(a + b, q) == Filter(a, p) {
      FilterIdempotent(Filter(a, p), q);
      FilterMembers(b, q);
      assert Filter(b, q) == [];
    }
    if (forall w :: w in b ==> !q(w)) && (forall w :: w in a ==> p(w) == q(w)) {
      FilterNone(b, q);
      FilterSame(a, p, q);
      assert Filter(a, q) + [] == Filter(a, q);
    }
  }

  /** A throw takes back exactly its own transaction's writes if and only if
      the transaction was isolated when it threw. */
  lemma {:induction false} ThrowUndoesItsOwnIffIsolated(s: Shared, tx: nat, kind: Op -> bool)
    requires Recorded(s, kind) && LikeADatabase(s, kind) && tx in s.running
    ensures LikeADatabase(Next(s, Throws(tx)), kind) <==> Isolated(s, tx, kind)
  {
    var mark := s.running[tx];
    assert MarkRecorded(s, tx, mark, kind);
    assert s.written == Before(s, mark) + Since(s, mark);
    KeptOfMore(Before(s, mark), Since(s, mark), mark.thrown, s.thrown + {tx}, kind);
    assert forall w :: Undone(w, s.thrown + {tx}) <==> w.writer == Some(tx) || Undone(w, s.thrown);
  }

  lemma {:induction false} AlwaysIffIsolated(s: Shared, events: seq<Event>, kind: Op -> bool)
    requires Recorded(s, kind) && LikeADatabase(s, kind)
    ensures AlwaysLikeADatabase(s, events, kind) <==> EveryThrowIsolated(s, events, kind)
    decreases events
  {
    if events != [] {
      var e, s' := events[0], Next(s, events[0]);
      NextKeepsRecorded(s, e, kind);
      if e.Throws? && e.tx in s.running {
        ThrowUndoesItsOwnIffIsolated(s, e.tx, kind);
      }
      if LikeADatabase(s', kind) {
        AlwaysIffIsolated(s', events[1..], kind);
      } else {
        assert !AlwaysLikeADatabase(s', events[1..], kind);
      }
    }
  }

  lemma {:induction false} AlwaysAtTheEnd(s: Shared, events: seq<Event>, kind: Op -> bool)
    requires AlwaysLikeADatabase(s, events, kind)
    ensures LikeADatabase(Play(s, events), kind)
    decreases events
  {
    if events != [] {
      AlwaysAtTheEnd(Next(s, events[0]), events[1..], kind);
    }
  }

  /** For every schedule of any calls, and for any kind of write: the standing
      writes are at all times exactly those no thrown transaction made, if and
      only if every transaction that throws is isolated when it does. If so for
      all writes, the tables are those of performing the kept ones directly.
      This counts writes: one that changes nothing counts too. */
  lemma LikeADatabaseIffIsolated(t: Tables, events: seq<Event>, kind: Op -> bool)
    ensures AlwaysLikeADatabase(Start(t), events, kind) <==> EveryThrowIsolated(Start(t), events, kind)
    ensures EveryThrowIsolated(Start(t), events, Any) ==>
              var s := Play(Start(t), events);
              ApplyAll(OpsOf(Kept(s.written, s.thrown, Any)), t) == Some(s.tables)
  {
    AlwaysIffIsolated(Start(t), events, kind);
    AlwaysIffIsolated(Start(t), events, Any);
    TablesAreStandingWrites(t, Start(t), events);
    if EveryThrowIsolated(Start(t), events, Any) {
      AlwaysAtTheEnd(Start(t), events, Any);
      OfAny(Play(Start(t), events).standing, Any);
    }
  }

  // ---- The audit table ----

  // The entries these writes append.
  function Appended(ws: seq<Written>): seq<AuditEntry> {
    if ws == [] then []
    else (if ws[0].op.AppendAudit? then [EntryOf(ws[0].op.entry, ws[0].op.at)] else []) + Appended(ws[1..])
  }

  // The audit table a database would hold.
  ghost predicate AuditLikeADatabase(t: Tables, s: Shared) {
    s.tables.audit == t.audit + Appended(Kept(s.written, s.thrown, Appends))
  }

  ghost predicate AuditAlwaysLikeADatabase(t: Tables, s: Shared, events: seq<Event>)
    decreases events
  {
    AuditLikeADatabase(t, s) && (events != [] ==> AuditAlwaysLikeADatabase(t, Next(s, events[0]), events[1..]))
  }

  // Every appended entry has an id of its own.
  ghost predicate OwnIds(ws: seq<Written>) {
    forall v, w :: v in ws && w in ws && v.op.AppendAudit? && w.op.AppendAudit? && v.op.entry.id == w.op.entry.id ==> v == w
  }

  ghost predicate NewId(s: Shared, e: Event) {
    e.Writes? && e.op.AppendAudit? ==>
      forall w :: w in s.written && w.op.AppendAudit? ==> w.op.entry.id != e.op.entry.id
  }

  ghost predicate NewIds(s: Shared, events: seq<Event>)
    decreases events
  {
    events != [] ==> NewId(s, events[0]) && NewIds(Next(s, events[0]), events[1..])
  }

  // Nothing stands that was not written.
  ghost predicate Known(s: Shared) {
    && (forall w :: w in s.standing ==> w in s.written)
    && forall tx, w :: tx in s.running && w in s.running[tx].standing ==> w in s.written
  }

  lemma NextKeepsKnown(s: Shared, e: Event)
    requires Known(s) && OwnIds(s.written) && NewId(s, e)
    ensures Known(Next(s, e)) && OwnIds(Next(s, e).written)
  {
  }

  lemma AppendedCons(w: Written, ws: seq<Written>)
    ensures Appended([w] + ws) == (if w.op.AppendAudit? then [EntryOf(w.op.entry, w.op.at)] else []) + Appended(ws)
  {
    assert ([w] + ws)[1..] == ws;
  }

  lemma OfCons(w: Written, ws: seq<Written>, kind: Op -> bool)
    ensures Of([w] + ws, kind) == if kind(w.op) then [w] + Of(ws, kind) else Of(ws, kind)
  {
    FilterCons(w, ws, (x: Written) => kind(x.op));
  }

  lemma {:induction false} AppendedOf(ws: seq<Written>)
    ensures Appended(Of(ws, Appends)) == Appended(ws)
  {
    if ws != [] {
      var w, rest := ws[0], ws[1..];
      assert ws == [w] + rest;
      AppendedOf(rest);
      OfCons(w, rest, Appends);
      AppendedCons(w, Of(rest, Appends));
      AppendedCons(w, rest);
    }
  }

  lemma AuditOfOne(w: Written, t: Tables)
    requires Apply(w.op, t).Some?
    ensures Apply(w.op, t).value.audit == t.audit + Appended([w])
  {
    AppendedCons(w, []);
    assert [w] + [] == [w];
  }

  lemma {:induction false} AuditOfWrites(ws: seq<Written>, t: Tables)
    requires ApplyAll(OpsOf(ws), t).Some?
    ensures ApplyAll(OpsOf(ws), t).value.audit == t.audit + Appended(ws)
  {
    if ws == [] {
      assert t.audit + [] == t.audit;
    } else {
      var w, rest := ws[0], ws[1..];
      assert OpsOf(ws)[0] == w.op && OpsOf(ws)[1..] == OpsOf(rest);
      AuditOfOne(w, t);
      AuditOfWrites(rest, Apply(w.op, t).value);
      AppendedCons(w, rest);
      AppendedCons(w, []);
      assert [w] + rest == ws && [w] + [] == [w];
      Associative(t.audit, Appended([w]), Appended(rest));
    }
  }

  // Of appends with ids of their own, the entries tell which writes they are.
  lemma {:induction false} AppendedIsInjective(a: seq<Written>, b: seq<Written>, ws: seq<Written>)
    requires OwnIds(ws) && (forall w :: w in a || w in b ==> w in ws && w.op.AppendAudit?)
    requires Appended(a) == Appended(b)
    ensures a == b
  {
    assert (a != [] ==> a[0] in a) && (b != [] ==> b[0] in b);
    if a != [] && b != [] {
      assert Appended(a)[0] == EntryOf(a[0].op.entry, a[0].op.at) && Appended(b)[0] == EntryOf(b[0].op.entry, b[0].op.at);
      assert a[0] == b[0];
      assert Appended(a)[1..] == Appended(a[1..]) && Appended(b)[1..] == Appended(b[1..]);
      AppendedIsInjective(a[1..], b[1..], ws);
      assert a == [a[0]] + a[1..] && b == [b[0]] + b[1..];
    }
  }

  lemma AuditIffAppendsStand(t: Tables, s: Shared)
    requires Founded(t, s) && Known(s) && OwnIds(s.written)
    ensures AuditLikeADatabase(t, s) <==> LikeADatabase(s, Appends)
  {
    var standing, kept := Of(s.standing, Appends), Kept(s.written, s.thrown, Appends);
    AuditOfWrites(s.standing, t);
    AppendedOf(s.standing);
    SelectedMembers(s.standing, s.written, s.thrown, Appends);
    if AuditLikeADatabase(t, s) {
      assert Appended(standing) == (t.audit + Appended(standing))[|t.audit|..];
      assert Appended(kept) == (t.audit + Appended(kept))[|t.audit|..];
      AppendedIsInjective(standing, kept, s.written);
    }
  }

  lemma {:induction false} AuditAlwaysIffAppendsStand(t: Tables, s: Shared, events: seq<Event>)
    requires Founded(t, s) && Known(s) && OwnIds(s.written) && NewIds(s, events)
    ensures AuditAlwaysLikeADatabase(t, s, events) <==> AlwaysLikeADatabase(s, events, Appends)
    decreases events
  {
    AuditIffAppendsStand(t, s);
    if events != [] {
      NextKeepsFounded(t, s, events[0]);
      NextKeepsKnown(s, events[0]);
      AuditAlwaysIffAppendsStand(t, Next(s, events[0]), events[1..]);
    }
  }

  /** The same of the table itself: if every appended entry has its own id, the
      audit table holds at all times exactly the entries no thrown transaction
      appended, if and only if every transaction that throws is isolated with
      respect to appends when it does. */
  lemma AuditTableIffIsolated(t: Tables, events: seq<Event>)
    requires NewIds(Start(t), events)
    ensures AuditAlwaysLikeADatabase(t, Start(t), events) <==> EveryThrowIsolated(Start(t), events, Appends)
  {
    AuditAlwaysIffAppendsStand(t, Start(t), events);
    AlwaysIffIsolated(Start(t), events, Appends);
  }

  // ---- What a caller can do about it ----

  // Nobody else writes or rolls back.
  ghost predicate Quiet(events: seq<Event>, tx: nat) {
    forall e :: e in events ==> (e.Writes? ==> e.writer == Some(tx)) && !e.Throws?
  }

  lemma {:induction false} QuietStretch(s: Shared, events: seq<Event>, tx: nat, mark: Mark)
    requires Quiet(events, tx) && tx in s.begun && mark.count <= |s.written|
    ensures var s' := Play(s, events);
            && s'.thrown == s.thrown && Before(s', mark) == Before(s, mark)
            && (tx in s'.running ==> tx in s.running && s'.running[tx] == s.running[tx])
            && forall w :: w in Since(s', mark) ==> w.writer == Some(tx) || w in Since(s, mark)
    decreases events
  {
    if events != [] {
      assert events[0] in events && forall e :: e in events[1..] ==> e in events;
      QuietStretch(Next(s, events[0]), events[1..], tx, mark);
    }
  }

  /** It is enough that nobody else writes or rolls back between a
      transaction's begin and its throw. */
  lemma QuietIsIsolated(s: Shared, events: seq<Event>, tx: nat)
    requires tx !in s.begun && Quiet(events, tx) && tx in Play(Next(s, Begins(tx)), events).running
    ensures forall kind: Op -> bool :: Isolated(Play(Next(s, Begins(tx)), events), tx, kind)
    ensures Next(Play(Next(s, Begins(tx)), events), Throws(tx)).tables == s.tables
  {
    var s1 := Next(s, Begins(tx));
    QuietStretch(s1, events, tx, s1.running[tx]);
    assert Before(s1, s1.running[tx]) == s.written;
  }

  // ---- Short schedules ----

  lemma PlayFirst(s: Shared, e: Event, rest: seq<Event>)
    ensures Play(s, [e] + rest) == Play(Next(s, e), rest)
  {
    assert ([e] + rest)[1..] == rest;
  }

  lemma PlayFive(s: Shared, a: Event, b: Event, c: Event, d: Event, e: Event)
    ensures Play(s, [a, b, c, d, e]) == Next(Next(Next(Next(Next(s, a), b), c), d), e)
  {
    var s2 := Next(Next(s, a), b);
    PlayFirst(s, a, [b, c, d, e]);
    PlayFirst(Next(s, a), b, [c, d, e]);
    PlayFirst(s2, c, [d, e]);
    PlayFirst(Next(s2, c), d, [e]);
    PlayFirst(Next(Next(s2, c), d), e, []);
    assert [a] + [b, c, d, e] == [a, b, c, d, e] && [b] + [c, d, e] == [b, c, d, e];
    assert [c] + [d, e] == [c, d, e] && [d] + [e] == [d, e] && [e] + [] == [e];
  }

  lemma KeptOne(w: Written, thrown: set<nat>, kind: Op -> bool)
    ensures Kept([w], thrown, kind) == if kind(w.op) && !Undone(w, thrown) then [w] else []
  {
    FilterCons(w, [], (x: Written) => kind(x.op) && !Undone(x, thrown));
    assert [w] + [] == [w];
  }

  // It is not necessary: another transaction may write and throw in between.
  lemma RolledBackOverlapIsHarmless(t: Tables, entry: NewAuditEntry, at: int)
    ensures var write := AppendAudit(entry, at);
            var s := Play(Start(t), [Begins(1), Begins(2), Writes(Some(2), write), Throws(2), Throws(1)]);
            s.tables == t && LikeADatabase(s, Any) && s.thrown == {1, 2}
  {
    var write := AppendAudit(entry, at);
    PlayFive(Start(t), Begins(1), Begins(2), Writes(Some(2), write), Throws(2), Throws(1));
    KeptOne(Written(Some(2), write), {1, 2}, Any);
  }

  /** A transaction that returned loses its write when one that was already
      open throws. */
  lemma OverlapLosesACommit(t: Tables, entry: NewAuditEntry, at: int)
    ensures var write := AppendAudit(entry, at);
            var s := Play(Start(t), [Begins(1), Begins(2), Writes(Some(2), write), Returns(2), Throws(1)]);
            && s.thrown == {1} && Kept(s.written, s.thrown, Any) == [Written(Some(2), write)]
            && s.tables == t && Apply(write, t) != Some(t)
  {
    var write := AppendAudit(entry, at);
    PlayFive(Start(t), Begins(1), Begins(2), Writes(Some(2), write), Returns(2), Throws(1));
    KeptOne(Written(Some(2), write), {1}, Any);
    assert |Apply(write, t).value.audit| > |t.audit|;
  }

  /** The write of a transaction that threw comes back when another one, which
      began in between, throws as well. */
  lemma OverlapRevivesARollback(t: Tables, entry: NewAuditEntry, at: int)
    ensures var write := AppendAudit(entry, at);
            var s := Play(Start(t), [Begins(1), Writes(Some(1), write), Begins(2), Throws(1), Throws(2)]);
            && s.thrown == {1, 2} && Kept(s.written, s.thrown, Any) == []
            && Some(s.tables) == Apply(write, t) && Apply(write, t) != Some(t)
  {
    var write := AppendAudit(entry, at);
    PlayFive(Start(t), Begins(1), Writes(Some(1), write), Begins(2), Throws(1), Throws(2));
    KeptOne(Written(Some(1), write), {1, 2}, Any);
    assert |Apply(write, t).value.audit| > |t.audit|;
  }
}
