/** The activities that hold the quarantine/retry lock, and the acknowledging tail of a
    drainer, keep the invariant. */
module RecoveryTasks {
  import opened ReceiptStates
  import opened RecoveryModel
  import opened RecoverySafety

  /** A step that changes the evidence of a single origin. */
  lemma OneOriginStep(w: World, v: World, o: Origin)
    requires DurableOk(w) && DrainersOk(w)
    requires o in w.receipts && o in v.receipts && v.receipts == w.receipts[o := v.receipts[o]]
    requires v.receipts[o].key == w.receipts[o].key
    requires v.logs == w.logs && v.drainers == w.drainers
    requires v.guard == w.guard || w.guard == ByTask
    requires w.flushed - {o} <= v.flushed && w.dead - {o} <= v.dead
    requires Accounted(v, o)
    requires ((Terminal(w, o) ==> Terminal(v, o)) && (o in w.flushed ==> o in v.flushed))
             || (forall k :: !WorksOn(w, k, o))
    ensures DurableOk(v) && DrainersOk(v)
  {
    forall k | k in v.logs ensures LogWellFormed(v, k) { assert LogWellFormed(w, k); }
    forall p | p in v.receipts ensures Accounted(v, p) {
      if p != o { assert Accounted(w, p); }
    }
    forall k | k in v.drainers ensures DrainerOk(v, k) {
      assert DrainerOk(w, k);
      assert !WorksOn(w, k, o) || !w.drainers[k].Guarded? || ((Terminal(w, o) ==> Terminal(v, o)) && (o in w.flushed ==> o in v.flushed));
    }
  }

  lemma AppendKeeps(logs: map<Key, Log>, k: Key, o: Origin)
    ensures var l := if k in logs then logs[k] else Log([], 0);
            var more := logs[k := l.(lines := l.lines + [o])];
            && (l.committed <= |l.lines| ==> HasUncommitted(more, o))
            && (forall p | HasUncommitted(logs, p) :: HasUncommitted(more, p))
            && (forall p | p != o :: HasUncommitted(more, p) ==> HasUncommitted(logs, p))
            && (forall p | p != o :: HasLine(more, p) ==> HasLine(logs, p))
  {
    var l := if k in logs then logs[k] else Log([], 0);
    var more := logs[k := l.(lines := l.lines + [o])];
    if l.committed <= |l.lines| {
      assert more[k].lines[|l.lines|] == o;
      assert UncommittedIn(more[k], o);
    }
    forall p | HasUncommitted(logs, p) ensures HasUncommitted(more, p) {
      var j :| j in logs && UncommittedIn(logs[j], p);
      var i :| logs[j].committed <= i < |logs[j].lines| && logs[j].lines[i] == p;
      assert more[j].lines[i] == p;
      assert UncommittedIn(more[j], p);
    }
    forall p | p != o && HasUncommitted(more, p) ensures HasUncommitted(logs, p) {
      var j :| j in more && UncommittedIn(more[j], p);
      var i :| more[j].committed <= i < |more[j].lines| && more[j].lines[i] == p;
      assert j in logs && logs[j].lines[i] == p;
      assert UncommittedIn(logs[j], p);
    }
    forall p | p != o && HasLine(more, p) ensures HasLine(logs, p) {
      var j :| j in more && p in more[j].lines;
      assert j in logs && p in logs[j].lines;
    }
  }

  lemma AppendStep(w: World, v: World, o: Origin)
    requires DurableOk(w) && DrainersOk(w) && o in w.receipts
    requires v.logs == AppendLine(w, w.receipts[o].key, o).logs
    requires v == w.(logs := v.logs, task := v.task)
    ensures DurableOk(v) && DrainersOk(v) && HasUncommitted(v.logs, o)
    ensures forall p | HasUncommitted(w.logs, p) :: HasUncommitted(v.logs, p)
  {
    var key := w.receipts[o].key;
    assert key in w.logs ==> LogWellFormed(w, key);
    AppendKeeps(w.logs, key, o);
    forall k | k in v.logs ensures LogWellFormed(v, k) {
      if k in w.logs { assert LogWellFormed(w, k); }
    }
    forall p | p in v.receipts ensures Accounted(v, p) { assert Accounted(w, p); }
    forall k | k in v.drainers ensures DrainerOk(v, k) { assert DrainerOk(w, k); }
  }

  /** The head item moves to another point of the loop body. */
  lemma HeadMoves(w: World, v: World, pc: PassPc)
    requires w.task.Pass? && PassOk(w) && w.task.todo != []
    requires v.task == w.task.(pc := pc)
    requires v.receipts.Keys == w.receipts.Keys
    requires forall p | p in w.receipts && p != w.task.todo[0].origin :: v.receipts[p] == w.receipts[p]
    requires forall p | HasUncommitted(w.logs, p) :: HasUncommitted(v.logs, p)
    requires HeadOk(v, w.task.todo[0], pc)
    ensures PassOk(v)
  {
    forall o | o in v.task.done ensures OutcomeHolds(v, o, v.task.done[o]) {
      assert OutcomeHolds(w, o, w.task.done[o]);
    }
  }

  /** The head item is finished. */
  lemma HeadFinishes(w: World, v: World, outcome: Outcome)
    requires w.task.Pass? && PassOk(w) && w.task.todo != []
    requires v.task == Finish(w.task, outcome)
    requires v.receipts.Keys == w.receipts.Keys && v.logs == w.logs
    requires forall p | p in w.receipts && p != w.task.todo[0].origin :: v.receipts[p] == w.receipts[p]
    requires OutcomeHolds(v, w.task.todo[0].origin, outcome)
    ensures PassOk(v)
  {
    forall o | o in v.task.done ensures OutcomeHolds(v, o, v.task.done[o]) {
      if o != w.task.todo[0].origin { assert OutcomeHolds(w, o, w.task.done[o]); }
    }
  }

  lemma SameDurable(w: World, v: World)
    requires DurableOk(w)
    requires v.receipts == w.receipts && v.logs == w.logs && v.flushed == w.flushed && v.dead == w.dead
    ensures DurableOk(v)
  {
    forall k | k in v.logs ensures LogWellFormed(v, k) { assert LogWellFormed(w, k); }
    forall p | p in v.receipts ensures Accounted(v, p) { assert Accounted(w, p); }
  }

  /** Only the running activity differs: everything but its own knowledge carries over. */
  lemma TaskOnly(w: World, v: World)
    requires DurableOk(w) && DrainersOk(w)
    requires v == w.(task := v.task, guard := v.guard)
    requires v.guard == w.guard || w.guard == ByTask || w.guard == Nobody
    ensures DurableOk(v) && DrainersOk(v)
  {
    SameDurable(w, v);
    forall k | k in v.drainers ensures DrainerOk(v, k) { assert DrainerOk(w, k); }
  }

  /** The head item moved on, or was finished with an outcome that holds. */
  ghost predicate Advances(w: World, v: World)
    requires w.task.Pass? && w.task.todo != []
  {
    var item := w.task.todo[0];
    && item.origin in v.receipts
    && (|| v.task == NoTask
        || (v.task.Pass? && v.task == w.task.(pc := v.task.pc) && HeadOk(v, item, v.task.pc))
        || (v.task.Pass? && item.origin in v.task.done
            && v.task == Finish(w.task, v.task.done[item.origin])
            && OutcomeHolds(v, item.origin, v.task.done[item.origin])))
  }

  ghost predicate Head(w: World) {
    && w.task.Pass? && w.task.todo != [] && w.task.todo[0].origin in w.receipts
    && Pending(w.task.todo[0].state)
    && HeadOk(w, w.task.todo[0], w.task.pc) && Accounted(w, w.task.todo[0].origin)
  }

  lemma ReadAdvances(w: World, claimed: bool)
    requires Head(w) && IsRead(w.task.pc)
    ensures Advances(w, PassStepOf(w, claimed))
  {
  }

  lemma MarkAdvances(w: World, claimed: bool)
    requires Head(w) && !IsRead(w.task.pc) && w.task.pc != AtAppend
    ensures var v, o := PassStepOf(w, claimed), w.task.todo[0].origin;
            && Advances(w, v) && Accounted(v, o)
            && v.receipts == w.receipts[o := v.receipts[o]] && v.receipts[o].key == w.receipts[o].key
            && (Terminal(w, o) ==> Terminal(v, o))
            && v == w.(receipts := v.receipts, task := v.task)
  {
  }

  lemma PassContinues(w: World, v: World)
    requires w.task.Pass? && PassOk(w) && w.task.todo != [] && v.task.Pass? && Advances(w, v)
    requires v.receipts.Keys == w.receipts.Keys && v.logs == w.logs
    requires forall p | p in w.receipts && p != w.task.todo[0].origin :: v.receipts[p] == w.receipts[p]
    ensures PassOk(v)
  {
    if v.task.todo == w.task.todo { HeadMoves(w, v, v.task.pc); }
    else { HeadFinishes(w, v, v.task.done[w.task.todo[0].origin]); }
  }

  lemma PassReadKeepsInv(w: World, claimed: bool)
    requires Inv(w) && w.task.Pass?
    requires w.task.todo == [] || IsRead(w.task.pc)
    ensures Inv(PassStepOf(w, claimed))
  {
    var v := PassStepOf(w, claimed);
    if w.task.todo != [] {
      assert Accounted(w, w.task.todo[0].origin);
      ReadAdvances(w, claimed);
      if v.task.Pass? { PassContinues(w, v); }
    }
    assert v == w.(task := v.task);
    TaskOnly(w, v);
  }

  lemma PassMarkKeepsInv(w: World, claimed: bool)
    requires Inv(w) && w.task.Pass? && w.task.todo != [] && !IsRead(w.task.pc) && w.task.pc != AtAppend
    ensures Inv(PassStepOf(w, claimed))
  {
    var v, o := PassStepOf(w, claimed), w.task.todo[0].origin;
    assert Accounted(w, o);
    MarkAdvances(w, claimed);
    OneOriginStep(w, v, o);
    PassContinues(w, v);
  }

  lemma PassAppendKeepsInv(w: World, claimed: bool)
    requires Inv(w) && w.task.Pass? && w.task.todo != [] && w.task.pc == AtAppend
    ensures Inv(PassStepOf(w, claimed))
  {
    var v, o := PassStepOf(w, claimed), w.task.todo[0].origin;
    AppendStep(w, v, o);
    HeadMoves(w, v, MarkingEnqueued);
  }

  lemma PassStepKeepsInv(w: World, claimed: bool)
    requires Inv(w) && w.task.Pass?
    ensures Inv(PassStepOf(w, claimed))
  {
    if w.task.todo == [] || IsRead(w.task.pc) {
      PassReadKeepsInv(w, claimed);
    } else if w.task.pc == AtAppend {
      PassAppendKeepsInv(w, claimed);
    } else {
      PassMarkKeepsInv(w, claimed);
    }
  }

  lemma StartTaskKeepsInv(w: World, a: Action)
    requires Inv(w)
    requires a.StartReconcile? || a.StartRepair? || a.TakeSnapshot? || a.StartRetry? || a.StartOperator?
    ensures Inv(TaskStep(w, a))
  {
    TaskOnly(w, TaskStep(w, a));
  }

  lemma BeginPassKeepsInv(w: World, bridge: bool, order: seq<Origin>)
    requires Inv(w)
    ensures Inv(TaskStep(w, BeginPass(bridge, order)))
  {
    var v := TaskStep(w, BeginPass(bridge, order));
    if v != w {
      assert v == w.(task := v.task) && v.task.todo == Items(w, order);
      ListedItemsOk(w, v, order);
      TaskOnly(w, v);
    }
  }

  lemma ListedItemsOk(w: World, v: World, order: seq<Origin>)
    requires ListsPending(w, order) && v.task.Pass? && v == w.(task := v.task)
    requires v.task.todo == Items(w, order) && v.task.done == map[] && v.task.pc == AtClaim
    ensures PassOk(v)
  {
    var todo := v.task.todo;
    forall i | 0 <= i < |todo|
      ensures todo[i].origin in w.receipts && Pending(todo[i].state) && ItemStable(v, todo[i])
    {
      assert todo[i] == Item(order[i], w.receipts[order[i]].state);
    }
    forall i, j | 0 <= i < j < |todo| ensures todo[i].origin != todo[j].origin {
      assert todo[i].origin == order[i] && todo[j].origin == order[j];
    }
  }

  lemma AdmitKeepsInv(w: World, o: Origin, k: Key, sessionEnd: bool)
    requires Inv(w)
    ensures Inv(TaskStep(w, Admit(o, k, sessionEnd)))
  {
    var v := TaskStep(w, Admit(o, k, sessionEnd));
    if v != w {
      forall j | j in v.logs ensures LogWellFormed(v, j) { assert LogWellFormed(w, j); }
      assert !HasLine(w.logs, o);
      forall p | p in v.receipts ensures Accounted(v, p) {
        if p != o { assert Accounted(w, p); }
      }
      forall j | j in v.drainers ensures DrainerOk(v, j) { assert DrainerOk(w, j); }
    }
  }

  lemma RetryStepKeepsInv(w: World, available: bool)
    requires Inv(w) && w.task.Retry?
    ensures Inv(RetryStepOf(w, available))
  {
    var v, o := RetryStepOf(w, available), w.task.origin;
    assert Accounted(w, o);
    match w.task.rpc
    case AtFence =>
      TaskOnly(w, v);
      if v.task.Retry? {
        forall k ensures !WorksOn(v, k, o) { assert k in w.drainers ==> DrainerOk(w, k); }
      }
    case AtRequeue =>
      OneOriginStep(w, v, o);
    case _ =>
      OneOriginStep(w, v, o);
      forall k ensures !WorksOn(v, k, o) { assert !WorksOn(w, k, o); }
  }

  lemma OperatorDeadLetterKeepsInv(w: World)
    requires Inv(w) && w.task.Operator? && w.task.opc.AtDeadLetter?
    ensures Inv(OperatorStepOf(w))
  {
    assert Accounted(w, w.task.origin);
    OneOriginStep(w, OperatorStepOf(w), w.task.origin);
  }

  lemma OperatorMarkKeepsInv(w: World)
    requires Inv(w) && w.task.Operator? && w.task.opc.AtQuarantine?
    ensures Inv(OperatorStepOf(w))
  {
    var v, o := OperatorStepOf(w), w.task.origin;
    assert Accounted(w, o);
    OperatorMarks(w);
    OneOriginStep(w, v, o);
  }

  lemma OperatorMarks(w: World)
    requires w.task.Operator? && w.task.opc.AtQuarantine? && w.task.origin in w.receipts
    ensures var v, o := OperatorStepOf(w), w.task.origin;
            && Terminal(v, o) && v.logs == w.logs && v.drainers == w.drainers && v.dead == w.dead && v.flushed == w.flushed
            && v.receipts == w.receipts[o := v.receipts[o]] && v.receipts[o].key == w.receipts[o].key
            && (w.receipts[o].state == Written ==> v.receipts[o].state == Written)
            && (v.receipts[o].state == Written ==> w.receipts[o].state == Written)
  {
  }

  lemma OperatorCommitKeepsInv(w: World)
    requires Inv(w) && w.task.Operator? && w.task.opc.AtCommit?
    ensures Inv(OperatorStepOf(w))
  {
    var v, key := OperatorStepOf(w), w.receipts[w.task.origin].key;
    assert key in w.logs && LogWellFormed(w, key);
    OffsetStep(w, v, key, w.task.opc.end);
    forall k | k in v.drainers ensures DrainerOk(v, k) { assert DrainerOk(w, k); }
  }

  lemma OperatorStepKeepsInv(w: World)
    requires Inv(w) && w.task.Operator?
    ensures Inv(OperatorStepOf(w))
  {
    match w.task.opc
    case AtInspect => TaskOnly(w, OperatorStepOf(w));
    case AtCommit(_) => OperatorCommitKeepsInv(w);
    case AtDeadLetter(_) => OperatorDeadLetterKeepsInv(w);
    case AtQuarantine(_) => OperatorMarkKeepsInv(w);
  }

  lemma AckMarkKeepsInv(w: World)
    requires Inv(w)
    ensures Inv(DrainerStep(w, AckMark))
  {
    var v := DrainerStep(w, AckMark);
    if v != w {
      assert DrainerOk(w, w.task.key);
      var o := LineOf(w, w.task.key);
      assert LogWellFormed(w, w.task.key);
      assert Accounted(w, o);
      OneOriginStep(w, v, o);
    }
  }

  lemma AckCommitKeepsInv(w: World)
    requires Inv(w)
    ensures Inv(DrainerStep(w, AckCommit))
  {
    var v := DrainerStep(w, AckCommit);
    if v != w {
      var k := w.task.key;
      assert DrainerOk(w, k);
      OffsetStep(w, v, k, w.drainers[k].pos + 1);
      forall j | j in v.drainers ensures DrainerOk(v, j) { assert j in w.drainers && DrainerOk(w, j); }
    }
  }

  lemma AckKeepsInv(w: World, a: Action)
    requires Inv(w) && (a.StartAck? || a.AckMark? || a.AckCommit?)
    ensures Inv(DrainerStep(w, a))
  {
    match a
    case StartAck(k) => TaskOnly(w, DrainerStep(w, a));
    case AckMark => AckMarkKeepsInv(w);
    case AckCommit => AckCommitKeepsInv(w);
  }

  /** Drainers may only stop, and only the flags of the process may change. */
  lemma StopsKeepInv(w: World, v: World)
    requires Inv(w)
    requires v.receipts == w.receipts && v.logs == w.logs && v.flushed == w.flushed && v.dead == w.dead
    requires forall k | k in v.drainers ::
               v.drainers[k].Idle? || (k in w.drainers && v.drainers[k] == w.drainers[k]
                                       && (v.drainers[k].Guarded? ==> v.guard == w.guard))
    requires v.task.NoTask? || (v.task == w.task && (w.guard.ByTask? ==> v.guard.ByTask?))
    requires v.task.Ack? ==> v.drainers == w.drainers
    ensures Inv(v)
  {
    SameDurable(w, v);
    forall k | k in v.drainers ensures DrainerOk(v, k) {
      if !v.drainers[k].Idle? { assert DrainerOk(w, k); }
    }
    if v.task.Pass? {
      forall o ensures OriginInterference(w, v, o) {}
      PassSurvives(w, v);
    } else if v.task.Retry? && v.task.rpc != AtFence {
      forall k ensures !WorksOn(v, k, w.task.origin) { assert !WorksOn(w, k, w.task.origin); }
    }
  }

  lemma StopKeepsInv(w: World, k: Key)
    requires Inv(w)
    ensures Inv(DrainerStep(w, StopDrainer(k)))
  {
    var v := DrainerStep(w, StopDrainer(k));
    forall j | j in w.drainers && w.drainers[j].Guarded? ensures w.guard == ByDrainer(j) { assert DrainerOk(w, j); }
    if w.task.Ack? && w.task.key != k {
      SameDurable(w, v);
      forall j | j in v.drainers ensures DrainerOk(v, j) { if j != k { assert DrainerOk(w, j); } }
    } else {
      StopsKeepInv(w, v);
    }
  }

  lemma AbortKeepsInv(w: World)
    requires Inv(w)
    ensures Inv(TaskStep(w, AbortTask))
  {
    forall j | j in w.drainers && w.drainers[j].Guarded? ensures w.guard == ByDrainer(j) { assert DrainerOk(w, j); }
    StopsKeepInv(w, TaskStep(w, AbortTask));
  }

  lemma DrainerKeepsInv(w: World, a: Action)
    requires Inv(w) && IsDrainerAction(a)
    ensures Inv(DrainerStep(w, a))
  {
    match a
    case StartAck(_) => AckKeepsInv(w, a);
    case AckMark => AckKeepsInv(w, a);
    case AckCommit => AckKeepsInv(w, a);
    case StopDrainer(k) => StopKeepsInv(w, k);
    case _ => FreeStepKeepsInv(w, a);
  }

  lemma TaskKeepsInv(w: World, a: Action)
    requires Inv(w) && !IsDrainerAction(a)
    ensures Inv(TaskStep(w, a))
  {
    match a
    case BeginPass(bridge, order) => BeginPassKeepsInv(w, bridge, order);
    case PassStep(claimed) => if w.task.Pass? { PassStepKeepsInv(w, claimed); }
    case Admit(o, k, sessionEnd) => AdmitKeepsInv(w, o, k, sessionEnd);
    case RetryStep(available) => if w.task.Retry? { RetryStepKeepsInv(w, available); }
    case OperatorStep => if w.task.Operator? { OperatorStepKeepsInv(w); }
    case AbortTask => AbortKeepsInv(w);
    case Pause =>
    case Resume =>
    case Crash =>
    case _ => StartTaskKeepsInv(w, a);
  }

  /** Every step keeps the invariant, whatever activity it belongs to. */
  lemma StepKeepsInv(w: World, a: Action)
    requires Inv(w)
    ensures Inv(Step(w, a))
  {
    if a.Pause? || a.Resume? || a.Crash? {
      StopsKeepInv(w, Step(w, a));
    } else if IsDrainerAction(a) {
      DrainerKeepsInv(w, a);
    } else {
      TaskKeepsInv(w, a);
    }
  }

  lemma {:induction false} RunKeepsInv(w: World, actions: seq<Action>)
    requires Inv(w)
    ensures Inv(Run(w, actions))
    decreases |actions|
  {
    if actions == [] {
    } else {
      StepKeepsInv(w, actions[0]);
      RunKeepsInv(Step(w, actions[0]), actions[1..]);
    }
  }
}
