/** Safety of the recovery protocol over every run. */
module RecoverySafety {
  import opened ReceiptStates
  import opened RecoveryModel

  // ---------------------------------------------------------------- the invariant

  /** The origin of the line a busy drainer works on. */
  ghost function LineOf(w: World, k: Key): Origin
    requires k in w.drainers && !w.drainers[k].Idle?
    requires w.drainers[k].pos < |LogOf(w, k).lines|
  {
    LogOf(w, k).lines[w.drainers[k].pos]
  }

  ghost predicate Terminal(w: World, o: Origin) {
    o in w.receipts && (w.receipts[o].state == Written || w.receipts[o].state == Quarantined)
  }

  /** Only its own drainer can move an offset below the record it holds; what it
      has established inside the pause guard stays true there. */
  ghost predicate DrainerOk(w: World, k: Key)
    requires k in w.drainers
  {
    var d := w.drainers[k];
    !d.Idle? ==>
      && d.pos < |LogOf(w, k).lines| && d.pos <= LogOf(w, k).committed
      && (d.Guarded? ==>
          && w.guard == ByDrainer(k)
          && (d.stage != Entered ==> HasUncommitted(w.logs, LineOf(w, k)))
          && (d.stage in {Flushed, Marked} ==> LineOf(w, k) in w.flushed)
          && (d.stage == Marked ==> Terminal(w, LineOf(w, k))))
  }

  /** The drainer of `k` has found `o` eligible and is about to flush or settle it. */
  ghost predicate WorksOn(w: World, k: Key, o: Origin) {
    && k in w.drainers && w.drainers[k].Guarded? && w.drainers[k].stage !in {Entered, Located}
    && w.drainers[k].pos < |LogOf(w, k).lines| && LineOf(w, k) == o
  }

  ghost predicate ItemStable(w: World, item: Item) {
    item.origin in w.receipts && w.receipts[item.origin].state in {item.state, Written}
  }

  ghost predicate HeadOk(w: World, item: Item, pc: PassPc)
    requires item.origin in w.receipts
  {
    var o, st := item.origin, w.receipts[item.origin].state;
    match pc
    case AtClaim => ItemStable(w, item)
    case AtDeadCheck => ItemStable(w, item)
    case MarkingQuarantined => ItemStable(w, item)
    case AtFirstRead => item.state == Enqueued && ItemStable(w, item) && Evidenced(w, o)
    case MarkingPending => item.state == Enqueued && ItemStable(w, item) && Evidenced(w, o)
    case AtSecondRead =>
      && st in {if item.state == RetryPending then RetryPending else PendingEnqueue, Written}
      && Evidenced(w, o)
    case AtEnqueueClaim => Pending(st) || st == Written
    case AtAppend => Pending(st) || st == Written
    case MarkingEnqueued => (Pending(st) && HasUncommitted(w.logs, o)) || st == Written
    case MarkingWritten => (Pending(st) || st == Written) && o in w.flushed
  }

  /** What a finished item of the running pass is known to satisfy. */
  ghost predicate OutcomeHolds(w: World, o: Origin, outcome: Outcome) {
    && o in w.receipts
    && match outcome
       case Settled => Terminal(w, o) || (w.receipts[o].state == Enqueued && HasUncommitted(w.logs, o))
       case Unbridged => w.receipts[o].state in {RetryPending, Written}
       case Unresolved => Pending(w.receipts[o].state) || w.receipts[o].state == Written
  }

  ghost predicate PassOk(w: World)
    requires w.task.Pass?
  {
    var todo := w.task.todo;
    && (forall i | 0 <= i < |todo| :: todo[i].origin in w.receipts && Pending(todo[i].state)
                                      && todo[i].origin !in w.task.done)
    && (forall i, j | 0 <= i < j < |todo| :: todo[i].origin != todo[j].origin)
    && (forall i | 1 <= i < |todo| :: ItemStable(w, todo[i]))
    && (todo != [] ==> HeadOk(w, todo[0], w.task.pc))
    && (forall o | o in w.task.done :: OutcomeHolds(w, o, w.task.done[o]))
  }

  ghost predicate OperatorOk(w: World)
    requires w.task.Operator?
  {
    var o, opc := w.task.origin, w.task.opc;
    opc != AtInspect ==>
      && o in w.receipts
      && var l := LogOf(w, w.receipts[o].key);
         match opc
         case AtDeadLetter(End(e)) => l.committed < |l.lines| && l.lines[l.committed] == o && e == l.committed + 1
         case AtQuarantine(End(e)) => l.committed < |l.lines| && l.lines[l.committed] == o && e == l.committed + 1
         case AtCommit(e) =>
           l.committed < |l.lines| && l.lines[l.committed] == o && e == l.committed + 1 && Terminal(w, o)
         case _ => true
  }

  ghost predicate TaskOk(w: World)
    requires DrainersOk(w)
  {
    match w.task
    case Pass(_, _, _, _, _, _) => PassOk(w)
    case Retry(o, rpc) =>
      && o in w.receipts && w.receipts[o].state == Quarantined
      && (rpc != AtFence ==> forall k :: !WorksOn(w, k, o))
    case Operator(_, _) => w.guard.ByTask? && OperatorOk(w)
    case Ack(k, marked) =>
      && w.guard.ByTask?
      && k in w.drainers && w.drainers[k].DeadLettered?
      && (marked ==> Terminal(w, LineOf(w, k)))
    case _ => true
  }

  ghost predicate DurableOk(w: World) {
    && LogsWellFormed(w)
    && (forall o | o in w.receipts :: Accounted(w, o))
  }

  ghost predicate DrainersOk(w: World) {
    forall k | k in w.drainers :: DrainerOk(w, k)
  }

  ghost predicate Inv(w: World) {
    DurableOk(w) && DrainersOk(w) && TaskOk(w)
  }

  lemma InitInv(w: World)
    requires Init(w)
    ensures Inv(w)
  {
  }

  // ---------------------------------------------------------------- what drainers do to others

  /** All that drainers may do to one origin while another activity holds the lock. */
  ghost predicate OriginInterference(w: World, v: World, o: Origin) {
    && (o in w.receipts <==> o in v.receipts)
    && (o in w.receipts ==>
          v.receipts[o] == w.receipts[o]
          || (Pending(w.receipts[o].state) && v.receipts[o] == w.receipts[o].(state := Written) && o in v.flushed))
    && (o in w.flushed ==> o in v.flushed)
    && (o in w.dead ==> o in v.dead)
    && (HasUncommitted(w.logs, o) && !HasUncommitted(v.logs, o) ==> Terminal(v, o))
    && (HasLine(v.logs, o) ==> HasLine(w.logs, o))
  }

  ghost predicate Interference(w: World, v: World) {
    forall o :: OriginInterference(w, v, o)
  }

  lemma PassSurvives(w: World, v: World)
    requires w.task.Pass? && v.task == w.task && PassOk(w) && Interference(w, v)
    ensures PassOk(v)
  {
    forall o | o in w.task.done ensures OutcomeHolds(v, o, v.task.done[o]) {
      assert OriginInterference(w, v, o) && OutcomeHolds(w, o, w.task.done[o]);
    }
    forall i | 0 <= i < |w.task.todo|
      ensures w.task.todo[i].origin in v.receipts && (1 <= i ==> ItemStable(v, w.task.todo[i]))
    {
      assert OriginInterference(w, v, w.task.todo[i].origin);
    }
    if w.task.todo != [] { assert OriginInterference(w, v, w.task.todo[0].origin); }
  }

  lemma ReceiptsSurvive(w: World, v: World)
    requires Interference(w, v) && forall o | o in w.receipts :: Accounted(w, o)
    ensures forall o | o in v.receipts :: Accounted(v, o)
  {
    forall o | o in v.receipts ensures Accounted(v, o) {
      assert OriginInterference(w, v, o);
      assert Accounted(w, o);
    }
  }

  lemma LogsSurvive(w: World, v: World)
    requires Interference(w, v) && LogsWellFormed(w)
    requires forall k | k in v.logs :: k in w.logs && v.logs[k].lines == w.logs[k].lines
                                       && v.logs[k].committed <= |v.logs[k].lines|
    ensures LogsWellFormed(v)
  {
    forall k | k in v.logs ensures LogWellFormed(v, k) {
      assert LogWellFormed(w, k);
      forall i | 0 <= i < |v.logs[k].lines| ensures v.logs[k].lines[i] in v.receipts && v.receipts[v.logs[k].lines[i]].key == k {
        assert OriginInterference(w, v, w.logs[k].lines[i]);
      }
    }
  }

  /** Drainers other than the one that steps keep what they know. */
  lemma OtherDrainersSurvive(w: World, v: World, k: Key)
    requires DrainersOk(w) && Interference(w, v)
    requires forall j | j in v.drainers && j != k :: j in w.drainers && v.drainers[j] == w.drainers[j]
                                                     && (v.drainers[j].Idle? || LogOf(v, j) == LogOf(w, j))
    requires v.guard == w.guard || w.guard == Nobody || w.guard == ByDrainer(k)
    requires w.guard == ByDrainer(k) || forall o | HasUncommitted(w.logs, o) :: HasUncommitted(v.logs, o)
    requires k in v.drainers ==> DrainerOk(v, k)
    ensures DrainersOk(v)
  {
    forall j | j in v.drainers && j != k ensures DrainerOk(v, j) {
      assert DrainerOk(w, j);
      if !v.drainers[j].Idle? { assert OriginInterference(w, v, LineOf(w, j)); }
    }
  }

  /** Moving an offset to at most one past itself uncommits no line but that one. */
  lemma OffsetMoveLoses(logs: map<Key, Log>, k: Key, n: nat)
    requires k in logs && n <= logs[k].committed + 1 && n <= |logs[k].lines|
    ensures var moved := logs[k := logs[k].(committed := n)];
            && (forall o | HasUncommitted(logs, o) && !HasUncommitted(moved, o) ::
                  n == logs[k].committed + 1 && o == logs[k].lines[logs[k].committed])
            && (forall o :: HasLine(moved, o) <==> HasLine(logs, o))
  {
    var moved := logs[k := logs[k].(committed := n)];
    forall o | HasUncommitted(logs, o) && !(n == logs[k].committed + 1 && o == logs[k].lines[logs[k].committed])
      ensures HasUncommitted(moved, o)
    {
      var j :| j in logs && UncommittedIn(logs[j], o);
      var i :| logs[j].committed <= i < |logs[j].lines| && logs[j].lines[i] == o;
      assert moved[j].lines[i] == o;
      assert UncommittedIn(moved[j], o);
    }
    forall o ensures HasLine(moved, o) <==> HasLine(logs, o) {
      if HasLine(logs, o) { var j :| j in logs && o in logs[j].lines; assert o in moved[j].lines; }
      if HasLine(moved, o) { var j :| j in moved && o in moved[j].lines; assert o in logs[j].lines; }
    }
  }

  /** Steps of one drainer that leave the spool and the ledger alone. */
  lemma LocalDrainerStep(w: World, v: World, k: Key)
    requires DurableOk(w) && DrainersOk(w)
    requires v.logs == w.logs && v.receipts == w.receipts
    requires w.flushed <= v.flushed && w.dead <= v.dead
    requires k in v.drainers && v.drainers == w.drainers[k := v.drainers[k]] && DrainerOk(v, k)
    requires v.guard == w.guard || w.guard == Nobody || w.guard == ByDrainer(k)
    ensures Interference(w, v) && DurableOk(v) && DrainersOk(v)
  {
    forall o ensures OriginInterference(w, v, o) {}
    ReceiptsSurvive(w, v);
    LogsSurvive(w, v);
    OtherDrainersSurvive(w, v, k);
  }

  /** An acknowledgement of a receipt that is already terminal. */
  lemma OffsetStep(w: World, v: World, k: Key, n: nat)
    requires DurableOk(w) && k in w.logs && n <= w.logs[k].committed + 1 && n <= |w.logs[k].lines|
    requires n == w.logs[k].committed + 1 ==> Terminal(w, w.logs[k].lines[w.logs[k].committed])
    requires v.logs == w.logs[k := w.logs[k].(committed := n)]
    requires v.receipts == w.receipts && v.flushed == w.flushed && v.dead == w.dead
    ensures Interference(w, v) && DurableOk(v)
  {
    OffsetMoveLoses(w.logs, k, n);
    forall o ensures OriginInterference(w, v, o) {}
    ReceiptsSurvive(w, v);
    LogsSurvive(w, v);
  }

  lemma ReadStep(w: World, k: Key)
    requires DurableOk(w) && DrainersOk(w)
    ensures var v := DrainerStep(w, Read(k)); v.task == w.task && Interference(w, v) && DurableOk(v) && DrainersOk(v)
  {
    var v := DrainerStep(w, Read(k));
    if v != w { LocalDrainerStep(w, v, k); }
  }

  lemma GuardStep(w: World, a: Action)
    requires DurableOk(w) && DrainersOk(w) && (a.EnterGuard? || a.LeaveGuard? || a.DeadLetter?)
    ensures var v := DrainerStep(w, a); v.task == w.task && Interference(w, v) && DurableOk(v) && DrainersOk(v)
  {
    var v := DrainerStep(w, a);
    if v != w {
      assert DrainerOk(w, a.k);
      LocalDrainerStep(w, v, a.k);
    }
  }

  lemma CheckStep(w: World, a: Action)
    requires DurableOk(w) && DrainersOk(w) && (a.Locate? || a.Check?)
    ensures var v := DrainerStep(w, a); v.task == w.task && Interference(w, v) && DurableOk(v) && DrainersOk(v)
  {
    var v := DrainerStep(w, a);
    if v != w {
      assert DrainerOk(w, a.k);
      LocalDrainerStep(w, v, a.k);
    }
  }

  lemma FlushStep(w: World, k: Key)
    requires DurableOk(w) && DrainersOk(w)
    ensures var v := DrainerStep(w, Flush(k)); v.task == w.task && Interference(w, v) && DurableOk(v) && DrainersOk(v)
  {
    var v := DrainerStep(w, Flush(k));
    if v != w {
      assert DrainerOk(w, k);
      LocalDrainerStep(w, v, k);
    }
  }

  lemma MarkFlushedStep(w: World, k: Key)
    requires DurableOk(w) && DrainersOk(w)
    ensures var v := DrainerStep(w, MarkFlushed(k)); v.task == w.task && Interference(w, v) && DurableOk(v) && DrainersOk(v)
  {
    var v := DrainerStep(w, MarkFlushed(k));
    if v != w {
      assert DrainerOk(w, k);
      forall o ensures OriginInterference(w, v, o) {}
      ReceiptsSurvive(w, v);
      LogsSurvive(w, v);
      OtherDrainersSurvive(w, v, k);
    }
  }

  lemma CommitStep(w: World, a: Action)
    requires DurableOk(w) && DrainersOk(w) && (a.Commit? || a.CommitTerminal?)
    ensures var v := DrainerStep(w, a); v.task == w.task && Interference(w, v) && DurableOk(v) && DrainersOk(v)
  {
    var v := DrainerStep(w, a);
    if v != w {
      assert DrainerOk(w, a.k);
      OffsetStep(w, v, a.k, if a.Commit? then w.drainers[a.k].pos + 1 else w.drainers[a.k].pos);
      OtherDrainersSurvive(w, v, a.k);
    }
  }

  lemma DeleteStep(w: World, k: Key)
    requires DurableOk(w) && DrainersOk(w)
    ensures var v := DrainerStep(w, DeleteDrained(k)); v.task == w.task && Interference(w, v) && DurableOk(v) && DrainersOk(v)
  {
    var v := DrainerStep(w, DeleteDrained(k));
    if v != w {
      forall o ensures OriginInterference(w, v, o) && (HasUncommitted(w.logs, o) ==> HasUncommitted(v.logs, o)) {
        if HasUncommitted(w.logs, o) {
          var j :| j in w.logs && UncommittedIn(w.logs[j], o);
          assert j in v.logs && v.logs[j] == w.logs[j];
        }
        if HasLine(v.logs, o) {
          var j :| j in v.logs && o in v.logs[j].lines;
          assert o in w.logs[j].lines;
        }
      }
      ReceiptsSurvive(w, v);
      LogsSurvive(w, v);
      OtherDrainersSurvive(w, v, k);
    }
  }

  ghost predicate IsFree(a: Action) { IsRecordAction(a) || a.DeleteDrained? }

  /** A drainer step needs no lock of its own unless it moves an offset. */
  lemma FreeStep(w: World, a: Action)
    requires Inv(w) && IsFree(a)
    ensures var v := DrainerStep(w, a); v.task == w.task && Interference(w, v) && DurableOk(v) && DrainersOk(v)
  {
    match a
    case Read(k) => ReadStep(w, k);
    case Locate(_) => CheckStep(w, a);
    case Check(_) => CheckStep(w, a);
    case Flush(k) => FlushStep(w, k);
    case MarkFlushed(k) => MarkFlushedStep(w, k);
    case Commit(k) => CommitStep(w, a);
    case CommitTerminal(k) => CommitStep(w, a);
    case DeleteDrained(k) => DeleteStep(w, k);
    case _ => GuardStep(w, a);
  }

  lemma OthersStartNoWork(w: World, a: Action, k: Key, o: Origin)
    requires IsRecordAction(a) && a.k != k && !WorksOn(w, k, o)
    ensures !WorksOn(RecordStep(w, a), k, o)
  {
    OthersUntouched(w, a, k);
  }

  /** A step on one key's record leaves the drainers and logs of other keys alone. */
  lemma OthersUntouched(w: World, a: Action, k: Key)
    requires IsRecordAction(a) && a.k != k
    ensures var v := RecordStep(w, a); DrainerOf(v, k) == DrainerOf(w, k) && LogOf(v, k) == LogOf(w, k)
    ensures k in RecordStep(w, a).drainers <==> k in w.drainers
  {
    if a.Commit? || a.CommitTerminal? {
      CommitElsewhere(w, a, k);
    }
  }

  lemma CommitElsewhere(w: World, a: Action, k: Key)
    requires (a.Commit? || a.CommitTerminal?) && a.k != k
    ensures var v := RecordStep(w, a); DrainerOf(v, k) == DrainerOf(w, k) && LogOf(v, k) == LogOf(w, k)
    ensures k in RecordStep(w, a).drainers <==> k in w.drainers
  {
  }

  lemma OnlyCheckStartsWork(w: World, a: Action, o: Origin)
    requires IsRecordAction(a) && !a.Check? && !WorksOn(w, a.k, o)
    ensures !WorksOn(RecordStep(w, a), a.k, o)
  {
  }

  lemma CheckStopsAtQuarantine(w: World, k: Key, o: Origin)
    requires !Flushable(w, o) && !WorksOn(w, k, o)
    ensures !WorksOn(RecordStep(w, Check(k)), k, o)
  {
  }

  lemma DeleteStartsNoWork(w: World, j: Key, k: Key, o: Origin)
    requires !WorksOn(w, k, o)
    ensures !WorksOn(SettleStep(w, DeleteDrained(j)), k, o)
  {
  }

  /** A quarantined receipt's lines are not eligible for a flush. */
  lemma QuarantineStopsWork(w: World, a: Action, k: Key, o: Origin)
    requires IsFree(a) && !Flushable(w, o) && !WorksOn(w, k, o)
    ensures !WorksOn(DrainerStep(w, a), k, o)
  {
    if a.DeleteDrained? {
      DeleteStartsNoWork(w, a.k, k, o);
    } else if a.k != k {
      OthersStartNoWork(w, a, k, o);
    } else if a.Check? {
      CheckStopsAtQuarantine(w, k, o);
    } else {
      OnlyCheckStartsWork(w, a, o);
    }
  }

  lemma RetrySurvives(w: World, a: Action)
    requires Inv(w) && IsFree(a) && w.task.Retry? && DrainersOk(DrainerStep(w, a))
    ensures TaskOk(DrainerStep(w, a))
  {
    FreeStep(w, a);
    var v, o := DrainerStep(w, a), w.task.origin;
    assert OriginInterference(w, v, o);
    if w.task.rpc != AtFence {
      forall k ensures !WorksOn(v, k, o) { QuarantineStopsWork(w, a, k, o); }
    }
  }

  /** While a lock holder has the pause guard, drainers acknowledge and mark nothing. */
  lemma FreeUnderTask(w: World, a: Action)
    requires DrainersOk(w) && IsFree(a) && w.guard.ByTask?
    ensures var v := DrainerStep(w, a);
            && v.receipts == w.receipts && v.guard == w.guard
            && (v.logs == w.logs || (a.DeleteDrained? && |LogOf(w, a.k).lines| <= LogOf(w, a.k).committed && v.logs == w.logs - {a.k}))
  {
    if IsRecordAction(a) {
      assert a.k in w.drainers ==> DrainerOk(w, a.k);
      UnguardedStep(w, a);
    }
  }

  lemma UnguardedStep(w: World, a: Action)
    requires IsRecordAction(a) && !DrainerOf(w, a.k).Guarded? && !w.guard.Nobody?
    ensures var v := RecordStep(w, a);
            v.receipts == w.receipts && v.logs == w.logs && v.guard == w.guard && w.dead <= v.dead
  {
  }

  lemma OperatorSurvives(w: World, a: Action)
    requires Inv(w) && IsFree(a) && w.task.Operator? && DrainersOk(DrainerStep(w, a)) && DrainerStep(w, a).task == w.task
    ensures TaskOk(DrainerStep(w, a))
  {
    FreeUnderTask(w, a);
  }

  lemma AckSurvives(w: World, a: Action)
    requires Inv(w) && IsFree(a) && w.task.Ack? && DrainersOk(DrainerStep(w, a))
    ensures TaskOk(DrainerStep(w, a))
  {
    FreeStep(w, a);
    var v := DrainerStep(w, a);
    assert DrainerOk(w, w.task.key);
    assert OriginInterference(w, v, LineOf(w, w.task.key));
    assert a.k in w.drainers ==> DrainerOk(w, a.k);
  }

  lemma FreeStepKeepsInv(w: World, a: Action)
    requires Inv(w) && IsFree(a)
    ensures Inv(DrainerStep(w, a))
  {
    FreeStep(w, a);
    match w.task
    case Pass(_, _, _, _, _, _) => PassSurvives(w, DrainerStep(w, a));
    case Retry(_, _) => RetrySurvives(w, a);
    case Operator(_, _) => OperatorSurvives(w, a);
    case Ack(_, _) => AckSurvives(w, a);
    case _ =>
  }
}
