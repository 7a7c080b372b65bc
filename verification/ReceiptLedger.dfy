/** The receipt ledger: source registration, admission and the receipt state machine.
    Each operation of the original is one SQLite transaction. */
module ReceiptLedger {
  import opened ReceiptStates

  type Id = Origin

  /** `payload` is the sanitized JSON text of the event, emptied once it is written. */
  datatype Row = Row(line: string, actor: string, workspace: string, digest: string, payload: string, state: ReceiptState)

  /** A conflict row keeps the stored side and the last received side. */
  datatype Kind = DescriptorKind | OrdinalKind
  datatype ConflictKey = ConflictKey(handle: string, kind: Kind, ordinal: int)
  datatype Evidence = DescriptorHash(hash: string) | LineAndPayload(line: string, payload: string)
  datatype Conflict = Conflict(stored: Evidence, received: Evidence)

  datatype Ledger = Ledger(sources: map<string, string>, rows: map<Id, Row>, conflicts: map<ConflictKey, Conflict>)

  datatype Request = Request(id: Id, descriptor: string, line: string, actor: string, workspace: string,
                             digest: string, payload: string)

  datatype Classification = New | Duplicate | Foreign | Conflicting
  datatype Admission = Accepted | AlreadyAdmitted | Busy | Refused
  datatype MarkResult = Changed | Unchanged | NoReceipt

  predicate HasPending(l: Ledger) { exists id | id in l.rows :: Pending(l.rows[id].state) }

  /** Insert a conflict, or update only what was received. */
  function Record(l: Ledger, key: ConflictKey, stored: Evidence, received: Evidence): Ledger {
    l.(conflicts := l.conflicts[key :=
      if key in l.conflicts then l.conflicts[key].(received := received) else Conflict(stored, received)])
  }

  predicate DescriptorConflicts(l: Ledger, q: Request) {
    q.id.handle in l.sources && l.sources[q.id.handle] != q.descriptor
  }

  predicate SameRecord(l: Ledger, q: Request)
    requires q.id in l.rows
  {
    l.rows[q.id].line == q.line && l.rows[q.id].digest == q.digest
  }

  predicate SameOwner(l: Ledger, q: Request)
    requires q.id in l.rows
  {
    l.rows[q.id].actor == q.actor && l.rows[q.id].workspace == q.workspace
  }

  function RecordDescriptor(l: Ledger, q: Request): Ledger
    requires q.id.handle in l.sources
  {
    Record(l, ConflictKey(q.id.handle, DescriptorKind, -1), DescriptorHash(l.sources[q.id.handle]), DescriptorHash(q.descriptor))
  }

  function RecordOrdinal(l: Ledger, q: Request): Ledger
    requires q.id in l.rows
  {
    Record(l, ConflictKey(q.id.handle, OrdinalKind, q.id.ordinal),
           LineAndPayload(l.rows[q.id].line, l.rows[q.id].digest), LineAndPayload(q.line, q.digest))
  }

  function Classify(l: Ledger, q: Request): (Ledger, Classification) {
    if DescriptorConflicts(l, q) then (RecordDescriptor(l, q), Conflicting)
    else if q.id !in l.rows then (l, New)
    else if SameRecord(l, q) then (l, if SameOwner(l, q) then Duplicate else Foreign)
    else (RecordOrdinal(l, q), Conflicting)
  }

  function Admit(l: Ledger, q: Request): (Ledger, Admission) {
    if DescriptorConflicts(l, q) then (RecordDescriptor(l, q), Refused)
    else if q.id in l.rows then
      if SameRecord(l, q) then (l, if SameOwner(l, q) then AlreadyAdmitted else Busy)
      else (RecordOrdinal(l, q), Refused)
    else if HasPending(l) then (l, Busy)
    else
      (l.(sources := if q.id.handle in l.sources then l.sources else l.sources[q.id.handle := q.descriptor],
          rows := l.rows[q.id := Row(q.line, q.actor, q.workspace, q.digest, q.payload, PendingEnqueue)]), Accepted)
  }

  function Mark(l: Ledger, id: Id, next: ReceiptState): (Ledger, MarkResult) {
    if id !in l.rows then (l, NoReceipt)
    else if !MarkAllowed(l.rows[id].state, next) then (l, Unchanged)
    else
      var payload := if next == Written then "" else l.rows[id].payload;
      (l.(rows := l.rows[id := l.rows[id].(state := next, payload := payload)]), Changed)
  }

  function Requeue(l: Ledger, id: Id): (Ledger, bool) {
    if HasPending(l) || id !in l.rows || l.rows[id].state != Quarantined then (l, false)
    else (l.(rows := l.rows[id := l.rows[id].(state := RetryPending)]), true)
  }

  function QuarantinePending(l: Ledger, id: Id): Ledger {
    if id in l.rows && Pending(l.rows[id].state) then l.(rows := l.rows[id := l.rows[id].(state := Quarantined)]) else l
  }

  /** RecoveryReceiptStore: the tables it updates in place. */
  class RecoveryReceiptStore {
    var sources: map<string, string>
    var rows: map<Id, Row>
    var conflicts: map<ConflictKey, Conflict>

    function View(): Ledger
      reads this
    {
      Ledger(sources, rows, conflicts)
    }

    /** One pending receipt at most, payloads kept until written, every source registered. */
    ghost predicate Valid()
      reads this
    {
      Inv(View())
    }

    constructor ()
      ensures Valid() && View() == Ledger(map[], map[], map[])
    {
      sources, rows, conflicts := map[], map[], map[];
    }

    /** INSERT ... ON CONFLICT DO UPDATE of the received side: the first evidence stored for
        a conflict stays, and the last evidence received is on record. */
    method RecordConflict(key: ConflictKey, stored: Evidence, received: Evidence)
      requires Valid()
      modifies this`conflicts
      ensures Valid() && Extends(old(View()), View())
      ensures conflicts.Keys == old(conflicts).Keys + {key} && conflicts[key].received == received
      ensures key !in old(conflicts) ==> conflicts[key].stored == stored
      ensures View() == Record(old(View()), key, stored, received)
    {
      if key in conflicts {
        conflicts := conflicts[key := Conflict(conflicts[key].stored, received)];
      } else {
        conflicts := conflicts[key := Conflict(stored, received)];
      }
      ConflictKeepsInv(old(View()), View());
    }

    /** What the class of a record says is what an admission would answer now. */
    method ClassifySource(q: Request) returns (c: Classification)
      requires Valid()
      modifies this`conflicts
      ensures Valid() && Extends(old(View()), View())
      ensures c == Duplicate <==> Admit(View(), q).1 == AlreadyAdmitted
      ensures c == Conflicting <==> Admit(View(), q).1 == Refused
      ensures c == New ==> (Admit(View(), q).1 == Accepted <==> !HasPending(View()))
      ensures c == Foreign ==> Admit(View(), q) == (View(), Busy)
      ensures (View(), c) == Classify(old(View()), q)
    {
      if q.id.handle in sources && sources[q.id.handle] != q.descriptor {
        RecordConflict(ConflictKey(q.id.handle, DescriptorKind, -1),
                       DescriptorHash(sources[q.id.handle]), DescriptorHash(q.descriptor));
        return Conflicting;
      }
      if q.id !in rows { return New; }
      var row := rows[q.id];
      if row.line == q.line && row.digest == q.digest {
        return if (row.actor, row.workspace) == (q.actor, q.workspace) then Duplicate else Foreign;
      }
      RecordConflict(ConflictKey(q.id.handle, OrdinalKind, q.id.ordinal),
                     LineAndPayload(row.line, row.digest), LineAndPayload(q.line, q.digest));
      return Conflicting;
    }

    /** An accepted record is the one pending receipt, and the same request is not accepted
        again; any other answer leaves receipts and sources alone. */
    method AdmitSource(q: Request) returns (r: Admission)
      requires Valid() && q.payload != ""
      modifies this
      ensures Valid() && Extends(old(View()), View())
      ensures r == Accepted ==> forall id :: IsPending(View(), id) <==> id == q.id
      ensures r == Accepted ==> q.id !in old(rows) && Admit(View(), q).1 == AlreadyAdmitted
      ensures r != Accepted ==> rows == old(rows) && sources == old(sources)
      ensures (View(), r) == Admit(old(View()), q)
    {
      AdmitKeepsInv(View(), q);
      if q.id.handle in sources && sources[q.id.handle] != q.descriptor {
        RecordConflict(ConflictKey(q.id.handle, DescriptorKind, -1),
                       DescriptorHash(sources[q.id.handle]), DescriptorHash(q.descriptor));
        return Refused;
      }
      if q.id in rows {
        var row := rows[q.id];
        if row.line == q.line && row.digest == q.digest {
          return if (row.actor, row.workspace) == (q.actor, q.workspace) then AlreadyAdmitted else Busy;
        }
        RecordConflict(ConflictKey(q.id.handle, OrdinalKind, q.id.ordinal),
                       LineAndPayload(row.line, row.digest), LineAndPayload(q.line, q.digest));
        return Refused;
      }
      if exists id | id in rows :: Pending(rows[id].state) { return Busy; }
      AdmittedIsOnlyPending(View(), q);
      if q.id.handle !in sources { sources := sources[q.id.handle := q.descriptor]; }
      rows := rows[q.id := Row(q.line, q.actor, q.workspace, q.digest, q.payload, PendingEnqueue)];
      return Accepted;
    }

    /** A mark never makes a settled receipt pending again, and marking twice is marking once. */
    method MarkReceipt(id: Id, next: ReceiptState) returns (r: MarkResult)
      requires Valid()
      modifies this`rows
      ensures Valid() && Extends(old(View()), View())
      ensures forall p :: IsPending(View(), p) ==> old(IsPending(View(), p))
      ensures r == Changed ==> id in rows && rows[id].state == next && Mark(View(), id, next) == (View(), Changed)
      ensures r != Changed ==> rows == old(rows)
      ensures (View(), r) == Mark(old(View()), id, next)
    {
      MarkKeepsInv(View(), id, next);
      if id !in rows { return NoReceipt; }
      if !MarkAllowed(rows[id].state, next) { return Unchanged; }
      rows := rows[id := rows[id].(state := next, payload := if next == Written then "" else rows[id].payload)];
      assert rows[id := rows[id]] == rows;
      return Changed;
    }

    /** A requeued receipt is the one pending receipt and keeps its payload; until it is
        settled nothing else can be requeued. */
    method RequeueQuarantined(id: Id) returns (ok: bool)
      requires Valid()
      modifies this`rows
      ensures Valid() && Extends(old(View()), View())
      ensures ok ==> forall p :: IsPending(View(), p) <==> p == id
      ensures ok ==> id in rows && id in old(rows) && rows[id].payload == old(rows)[id].payload != ""
      ensures ok ==> forall p :: !Requeue(View(), p).1
      ensures !ok ==> rows == old(rows)
      ensures (View(), ok) == Requeue(old(View()), id)
    {
      RequeueKeepsInv(View(), id);
      if exists p | p in rows :: Pending(rows[p].state) { return false; }
      if id !in rows || rows[id].state != Quarantined { return false; }
      rows := rows[id := rows[id].(state := RetryPending)];
      return true;
    }

    /** A pending receipt that is quarantined leaves nothing pending, and can be requeued. */
    method QuarantineSelected(id: Id)
      requires Valid()
      modifies this`rows
      ensures Valid() && Extends(old(View()), View()) && !IsPending(View(), id)
      ensures old(IsPending(View(), id)) ==> !HasPending(View()) && Requeue(View(), id).1
      ensures !old(IsPending(View(), id)) ==> rows == old(rows)
      ensures View() == QuarantinePending(old(View()), id)
    {
      QuarantineKeepsInv(View(), id);
      if id in rows && Pending(rows[id].state) {
        QuarantineLeavesNone(View(), id);
        rows := rows[id := rows[id].(state := Quarantined)];
      }
    }
  }

  // ---------------------------------------------------------------- runs

  datatype Op =
    | DoClassify(q: Request) | DoAdmit(q: Request) | DoMark(id: Id, next: ReceiptState)
    | DoRequeue(id: Id) | DoQuarantine(id: Id)

  /** A payload is the text of a JSON object, so it is never empty. */
  predicate WellFormed(op: Op) { op.DoAdmit? ==> op.q.payload != "" }

  function Step(l: Ledger, op: Op): Ledger {
    match op
    case DoClassify(q) => Classify(l, q).0
    case DoAdmit(q) => Admit(l, q).0
    case DoMark(id, next) => Mark(l, id, next).0
    case DoRequeue(id) => Requeue(l, id).0
    case DoQuarantine(id) => QuarantinePending(l, id)
  }

  function Run(l: Ledger, ops: seq<Op>): Ledger
    decreases |ops|
  {
    if ops == [] then l else Run(Step(l, ops[0]), ops[1..])
  }

  ghost predicate IsPending(l: Ledger, id: Id) { id in l.rows && Pending(l.rows[id].state) }

  /** The payload is empty exactly when the receipt is written; its source is registered. */
  ghost predicate RowOk(l: Ledger, id: Id)
    requires id in l.rows
  {
    (l.rows[id].payload == "" <==> l.rows[id].state == Written) && id.handle in l.sources
  }

  ghost predicate Inv(l: Ledger) {
    && (forall a, b | IsPending(l, a) && IsPending(l, b) :: a == b)
    && (forall id | id in l.rows :: RowOk(l, id))
  }

  /** Nothing but state and payload of a row may change, and nothing once it is written. */
  ghost predicate RowKept(l: Ledger, m: Ledger, id: Id)
    requires id in l.rows
  {
    && id in m.rows
    && m.rows[id] == l.rows[id].(state := m.rows[id].state, payload := m.rows[id].payload)
    && (l.rows[id].state == Written ==> m.rows[id] == l.rows[id])
  }

  /** What no step may change of a ledger. */
  ghost predicate Extends(l: Ledger, m: Ledger) {
    && (forall h | h in l.sources :: h in m.sources && m.sources[h] == l.sources[h])
    && (forall key | key in l.conflicts :: key in m.conflicts && m.conflicts[key].stored == l.conflicts[key].stored)
    && (forall id | id in l.rows :: RowKept(l, m, id))
  }

  /** A step that changes at most one row. */
  lemma OneRowKeepsInv(l: Ledger, m: Ledger, id: Id)
    requires Inv(l) && id in m.rows && m.rows == l.rows[id := m.rows[id]] && RowOk(m, id)
    requires m.conflicts == l.conflicts && forall h | h in l.sources :: h in m.sources && m.sources[h] == l.sources[h]
    requires id in l.rows ==> RowKept(l, m, id)
    requires IsPending(m, id) ==> IsPending(l, id) || !HasPending(l)
    ensures Inv(m) && Extends(l, m)
  {
    forall a | a in m.rows ensures RowOk(m, a) { if a != id { assert RowOk(l, a); } }
    forall a, b | IsPending(m, a) && IsPending(m, b) ensures a == b {
      if a != id { assert IsPending(l, a); }
      if b != id { assert IsPending(l, b); }
    }
  }

  /** A step that only records a conflict. */
  lemma ConflictKeepsInv(l: Ledger, m: Ledger)
    requires Inv(l) && m == l.(conflicts := m.conflicts)
    requires forall key | key in l.conflicts :: key in m.conflicts && m.conflicts[key].stored == l.conflicts[key].stored
    ensures Inv(m) && Extends(l, m)
  {
    forall id | id in m.rows ensures RowOk(m, id) { assert RowOk(l, id); }
    forall a, b | IsPending(m, a) && IsPending(m, b) ensures a == b { assert IsPending(l, a) && IsPending(l, b); }
  }

  lemma ClassifyKeepsInv(l: Ledger, q: Request)
    requires Inv(l)
    ensures Inv(Classify(l, q).0) && Extends(l, Classify(l, q).0)
  {
    ConflictKeepsInv(l, Classify(l, q).0);
  }

  lemma AdmitKeepsInv(l: Ledger, q: Request)
    requires Inv(l) && q.payload != ""
    ensures Inv(Admit(l, q).0) && Extends(l, Admit(l, q).0)
  {
    if Admit(l, q).1 == Accepted {
      OneRowKeepsInv(l, Admit(l, q).0, q.id);
    } else {
      ClassifyKeepsInv(l, q);
    }
  }

  lemma AdmittedIsOnlyPending(l: Ledger, q: Request)
    requires Admit(l, q).1 == Accepted
    ensures var m := Admit(l, q).0;
            Admit(m, q).1 == AlreadyAdmitted && forall id :: IsPending(m, id) <==> id == q.id
  {
  }

  lemma MarkKeepsInv(l: Ledger, id: Id, next: ReceiptState)
    requires Inv(l)
    ensures Inv(Mark(l, id, next).0) && Extends(l, Mark(l, id, next).0)
  {
    if id in l.rows {
      assert RowOk(l, id);
      OneRowKeepsInv(l, Mark(l, id, next).0, id);
    }
  }

  lemma RequeueKeepsInv(l: Ledger, id: Id)
    requires Inv(l)
    ensures Inv(Requeue(l, id).0) && Extends(l, Requeue(l, id).0)
  {
    if id in l.rows {
      assert RowOk(l, id);
      OneRowKeepsInv(l, Requeue(l, id).0, id);
    }
  }

  lemma QuarantineKeepsInv(l: Ledger, id: Id)
    requires Inv(l)
    ensures Inv(QuarantinePending(l, id)) && Extends(l, QuarantinePending(l, id))
  {
    if id in l.rows {
      assert RowOk(l, id);
      OneRowKeepsInv(l, QuarantinePending(l, id), id);
    }
  }

  lemma QuarantineLeavesNone(l: Ledger, id: Id)
    requires Inv(l) && IsPending(l, id)
    ensures !HasPending(QuarantinePending(l, id)) && Requeue(QuarantinePending(l, id), id).1
  {
    var m := QuarantinePending(l, id);
    forall p | p in m.rows ensures !Pending(m.rows[p].state) {
      assert IsPending(l, p) ==> p == id;
    }
  }

  lemma StepKeepsInv(l: Ledger, op: Op)
    requires Inv(l) && WellFormed(op)
    ensures Inv(Step(l, op)) && Extends(l, Step(l, op))
  {
    match op
    case DoClassify(q) => ClassifyKeepsInv(l, q);
    case DoAdmit(q) => AdmitKeepsInv(l, q);
    case DoMark(id, next) => MarkKeepsInv(l, id, next);
    case DoRequeue(id) => RequeueKeepsInv(l, id);
    case DoQuarantine(id) => QuarantineKeepsInv(l, id);
  }

  /** Quarantine is left only by a requeue, which needs an otherwise idle ledger. */
  lemma QuarantineLeftOnlyByRequeue(l: Ledger, op: Op, id: Id)
    requires id in l.rows && l.rows[id].state == Quarantined
    ensures id in Step(l, op).rows
    ensures Step(l, op).rows[id] != l.rows[id] <==> op == DoRequeue(id) && !HasPending(l)
    ensures Step(l, op).rows[id] != l.rows[id] ==> Step(l, op).rows[id] == l.rows[id].(state := RetryPending)
  {
  }

  lemma {:induction false} ExtendsTransitive(a: Ledger, b: Ledger, c: Ledger)
    requires Extends(a, b) && Extends(b, c)
    ensures Extends(a, c)
  {
    forall id | id in a.rows ensures RowKept(a, c, id) {
      assert RowKept(a, b, id) && RowKept(b, c, id);
    }
  }

  /** Over every run: one pending receipt at most, payload kept until written, written
      rows frozen, and the line hash, payload hash and owner of an ordinal never change. */
  lemma {:induction false} RunKeepsLedger(l: Ledger, ops: seq<Op>)
    requires Inv(l) && forall i | 0 <= i < |ops| :: WellFormed(ops[i])
    ensures Inv(Run(l, ops)) && Extends(l, Run(l, ops))
    decreases |ops|
  {
    if ops == [] {
    } else {
      StepKeepsInv(l, ops[0]);
      RunKeepsLedger(Step(l, ops[0]), ops[1..]);
      ExtendsTransitive(l, Step(l, ops[0]), Run(l, ops));
    }
  }

  lemma ExtensionKeepsVerdict(l: Ledger, m: Ledger, q: Request)
    requires Extends(l, m)
    ensures DescriptorConflicts(l, q) ==> DescriptorConflicts(m, q)
    ensures q.id in l.rows ==> q.id in m.rows && SameRecord(m, q) == SameRecord(l, q) && SameOwner(m, q) == SameOwner(l, q)
    ensures q.id.handle in l.sources && !DescriptorConflicts(l, q) ==> !DescriptorConflicts(m, q)
  {
    assert q.id in l.rows ==> RowKept(l, m, q.id);
  }

  /** Classification predicts admission, at any later time: a record classified as a
      duplicate, foreign or conflicting is never admitted, and a new one is admitted
      exactly when its source and ordinal are still free and nothing is pending. */
  lemma ClassificationPredictsAdmission(l: Ledger, q: Request, ops: seq<Op>)
    requires Inv(l) && forall i | 0 <= i < |ops| :: WellFormed(ops[i])
    ensures var later := Run(Classify(l, q).0, ops);
            && (Classify(l, q).1 == Duplicate ==> Admit(later, q).1 == AlreadyAdmitted)
            && (Classify(l, q).1 == Foreign ==> Admit(later, q).1 == Busy)
            && (Classify(l, q).1 == Conflicting ==> Admit(later, q).1 == Refused)
            && (Admit(later, q).1 == Accepted <==>
                  !DescriptorConflicts(later, q) && q.id !in later.rows && !HasPending(later))
  {
    ClassifyKeepsInv(l, q);
    if q.id in l.rows { assert RowOk(l, q.id); }
    RunKeepsLedger(Classify(l, q).0, ops);
    ExtensionKeepsVerdict(Classify(l, q).0, Run(Classify(l, q).0, ops), q);
  }

  /** The same request is accepted at most once in any run. */
  lemma AcceptedOnce(l: Ledger, q: Request, r: Request, ops: seq<Op>)
    requires Inv(l) && Admit(l, q).1 == Accepted && q.payload != "" && r.id == q.id
    requires forall i | 0 <= i < |ops| :: WellFormed(ops[i])
    ensures Admit(Run(Admit(l, q).0, ops), r).1 != Accepted
  {
    AdmitKeepsInv(l, q);
    RunKeepsLedger(Admit(l, q).0, ops);
    assert RowKept(Admit(l, q).0, Run(Admit(l, q).0, ops), q.id);
  }
}
