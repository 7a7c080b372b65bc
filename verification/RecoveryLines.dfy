/** How many unacknowledged queue lines one recovery origin can have.

    The offset a drainer commits is the one it read with its record. While it
    holds a record, an operator quarantine may acknowledge that record first, and
    the drainer's commit may then move the offset back. Whether that can leave an
    origin with two unacknowledged lines depends on what the acknowledgement
    finds: here, that it cannot as long as no acknowledgement is of the harmful
    kind; `RecoveryOvertaking` shows that every harmful one can.
 */
module RecoveryLines {
  import opened ReceiptStates
  import opened RecoveryModel
  import opened RecoverySafety
  import opened RecoveryTasks
  import opened RecoveryTheorems

  ghost predicate Distinct(l: Log) {
    forall i, j | l.committed <= i < j < |l.lines| :: l.lines[i] != l.lines[j]
  }

  /** No origin has two unacknowledged lines. */
  ghost predicate AllDistinct(w: World) {
    forall k | k in w.logs :: Distinct(w.logs[k])
  }

  /** The operator's acknowledgement of a line whose drainer holds a record. */
  ghost predicate Overtakes(w: World, a: Action) {
    && a.OperatorStep? && w.task.Operator? && w.task.opc.AtCommit?
    && w.task.origin in w.receipts && !DrainerOf(w, w.receipts[w.task.origin].key).Idle?
  }

  ghost predicate SessionEnd(w: World, o: Origin) { o in w.receipts && w.receipts[o].sessionEnd }

  /** The line after the first unacknowledged one is there and its receipt is not pending. */
  ghost predicate BackedUp(w: World, l: Log) {
    l.committed + 1 < |l.lines| && Terminal(w, l.lines[l.committed + 1])
  }

  /** An overtaking acknowledgement of a session end that the drainer may still flush, or of
      a line with no settled line behind it. While a single receipt is pending at a time,
      the latter means the last line of the log. */
  ghost predicate Harms(w: World, a: Action) {
    && Overtakes(w, a)
    && var k := w.receipts[w.task.origin].key;
       (DrainerOf(w, k).Holding? && SessionEnd(w, w.task.origin)) || !BackedUp(w, LogOf(w, k))
  }

  ghost predicate NeverHarms(w: World, actions: seq<Action>)
    decreases |actions|
  {
    actions == [] || (!Harms(w, actions[0]) && NeverHarms(Step(w, actions[0]), actions[1..]))
  }

  // ---------------------------------------------------------------- where drainers stand

  ghost predicate InStep(w: World, k: Key) {
    k in w.drainers && !w.drainers[k].Idle? ==> w.drainers[k].pos == LogOf(w, k).committed
  }

  /** The drainer's record was acknowledged for it, and a settled line stands next. */
  ghost predicate Behind(w: World, k: Key) {
    && k in w.drainers && !w.drainers[k].Idle?
    && var d, l := w.drainers[k], LogOf(w, k);
       && d.pos + 1 == l.committed < |l.lines| && Terminal(w, l.lines[l.committed])
       && (SessionEnd(w, l.lines[d.pos]) ==> d.DeadLettered?)
  }

  ghost predicate Placed(w: World, k: Key) { InStep(w, k) || Behind(w, k) }

  ghost predicate Appends(t: Task) {
    t.Pass? && t.todo != [] && t.pc in {AtEnqueueClaim, AtAppend}
  }

  ghost predicate AppendReady(w: World) {
    Appends(w.task) ==> !HasUncommitted(w.logs, w.task.todo[0].origin)
  }

  /** A retry past its fence has no unacknowledged line. */
  ghost predicate RetryReady(w: World) {
    w.task.Retry? && w.task.rpc != AtFence ==> !HasUncommitted(w.logs, w.task.origin)
  }

  /** An operator past the inspection has found the drainer in step, and its own marks hold. */
  ghost predicate OperatorReady(w: World) {
    w.task.Operator? && !w.task.opc.AtInspect? ==>
      var o, opc := w.task.origin, w.task.opc;
      && o in w.receipts && InStep(w, w.receipts[o].key)
      && (opc.AtDeadLetter? ==> Pending(w.receipts[o].state))
      && (opc.AtQuarantine? ==> Pending(w.receipts[o].state) && o in w.dead)
      && (opc.AtCommit? ==> w.receipts[o].state == Quarantined && o in w.dead)
  }

  ghost predicate TaskReady(w: World) { AppendReady(w) && RetryReady(w) && OperatorReady(w) }

  ghost predicate LinesInv(w: World) {
    && Inv(w) && AllDistinct(w) && (forall k :: Placed(w, k)) && TaskReady(w)
  }

  // ---------------------------------------------------------------- what steps do to the spool

  datatype LogChange = SameLogs | Offset(k: Key, n: nat) | Append(k: Key, o: Origin) | Delete(k: Key)

  ghost function Logs(w: World, c: LogChange): map<Key, Log> {
    match c
    case SameLogs => w.logs
    case Offset(k, n) => SetOffset(w, k, n).logs
    case Append(k, o) => AppendLine(w, k, o).logs
    case Delete(k) => w.logs - {k}
  }

  /** What a step that harms nobody does to the spool: no offset ever moves back. */
  ghost predicate Orderly(w: World, c: LogChange) {
    match c
    case Offset(k, n) => k in w.logs && w.logs[k].committed <= n <= w.logs[k].committed + 1
    case Append(k, o) => !HasUncommitted(w.logs, o)
    case Delete(k) => DrainerOf(w, k).Idle?
    case _ => true
  }

  /** The drainer of `k` acknowledges past the record it holds, or up to it if in step. */
  lemma OwnOffsetIsOrderly(w: World, k: Key, n: nat)
    requires k in w.drainers && !w.drainers[k].Idle? && DrainerOk(w, k) && Placed(w, k)
    requires n == w.drainers[k].pos + 1 || (n == w.drainers[k].pos && InStep(w, k))
    ensures Orderly(w, Offset(k, n))
  {
  }

  lemma CommitLogs(w: World, k: Key) returns (c: LogChange)
    requires DrainersOk(w) && Placed(w, k)
    ensures DrainerStep(w, Commit(k)).logs == Logs(w, c) && Orderly(w, c) && (c.SameLogs? || c.Offset?)
  {
    c := SameLogs;
    if DrainerStep(w, Commit(k)) != w {
      assert DrainerOk(w, k);
      c := Offset(k, w.drainers[k].pos + 1);
      OwnOffsetIsOrderly(w, k, c.n);
    }
  }

  lemma CommitTerminalLogs(w: World, k: Key) returns (c: LogChange)
    requires DrainersOk(w) && Placed(w, k)
    ensures DrainerStep(w, CommitTerminal(k)).logs == Logs(w, c) && Orderly(w, c) && (c.SameLogs? || c.Offset?)
  {
    c := SameLogs;
    if DrainerStep(w, CommitTerminal(k)) != w {
      assert DrainerOk(w, k) && InStep(w, k);
      c := Offset(k, w.drainers[k].pos);
      OwnOffsetIsOrderly(w, k, c.n);
    }
  }

  lemma AckCommitLogs(w: World) returns (c: LogChange)
    requires DrainersOk(w) && (w.task.Ack? ==> Placed(w, w.task.key))
    ensures DrainerStep(w, AckCommit).logs == Logs(w, c) && Orderly(w, c) && (c.SameLogs? || c.Offset?)
  {
    c := SameLogs;
    if DrainerStep(w, AckCommit) != w {
      assert DrainerOk(w, w.task.key);
      c := Offset(w.task.key, w.drainers[w.task.key].pos + 1);
      OwnOffsetIsOrderly(w, w.task.key, c.n);
    }
  }

  lemma DrainerLogs(w: World, a: Action) returns (c: LogChange)
    requires DrainersOk(w) && (forall k :: Placed(w, k)) && IsDrainerAction(a)
    ensures DrainerStep(w, a).logs == Logs(w, c) && Orderly(w, c) && !c.Append?
  {
    match a
    case Commit(k) => c := CommitLogs(w, k);
    case CommitTerminal(k) => c := CommitTerminalLogs(w, k);
    case AckCommit => c := AckCommitLogs(w);
    case DeleteDrained(k) => c := if DrainerStep(w, a) != w then Delete(k) else SameLogs;
    case _ =>
      OtherDrainerLogs(w, a);
      c := SameLogs;
  }

  lemma OtherDrainerLogs(w: World, a: Action)
    requires !a.Commit? && !a.CommitTerminal? && !a.AckCommit? && !a.DeleteDrained?
    ensures DrainerStep(w, a).logs == w.logs
  {
    if IsRecordAction(a) {
      assert RecordStep(w, a).logs == w.logs;
    }
  }

  lemma PassLogs(w: World, claimed: bool) returns (c: LogChange)
    requires w.task.Pass? && (w.task.todo != [] ==> w.task.todo[0].origin in w.receipts)
    requires AppendReady(w)
    ensures PassStepOf(w, claimed).logs == Logs(w, c) && Orderly(w, c) && (c.SameLogs? || c.Append?)
    ensures PassStepOf(w, claimed).drainers == w.drainers
  {
    var t := w.task;
    c := if t.todo != [] && t.pc == AtAppend then Append(w.receipts[t.todo[0].origin].key, t.todo[0].origin) else SameLogs;
  }

  lemma OperatorLogs(w: World) returns (c: LogChange)
    requires w.task.Operator? && OperatorOk(w)
    ensures OperatorStepOf(w).logs == Logs(w, c) && Orderly(w, c)
    ensures c.SameLogs? || c.Offset?
    ensures c.Offset? ==> w.task.opc.AtCommit? && w.task.origin in w.receipts && c.k == w.receipts[w.task.origin].key
    ensures c.Offset? ==> c.n == LogOf(w, c.k).committed + 1
    ensures OperatorStepOf(w).drainers == w.drainers
  {
    c := if w.task.opc.AtCommit? then Offset(w.receipts[w.task.origin].key, w.task.opc.end) else SameLogs;
  }

  lemma OperatorKeepsDrainers(w: World)
    requires w.task.Operator?
    ensures OperatorStepOf(w).drainers == w.drainers
  {
  }

  lemma PassKeepsDrainers(w: World, claimed: bool)
    requires w.task.Pass?
    ensures PassStepOf(w, claimed).drainers == w.drainers
  {
  }

  lemma OtherTaskLogs(w: World, a: Action)
    requires !IsDrainerAction(a) && !(a.OperatorStep? && w.task.Operator?) && !(a.PassStep? && w.task.Pass?)
    ensures TaskStep(w, a).logs == w.logs && (TaskStep(w, a).drainers == w.drainers || a.AbortTask?)
  {
    if a.RetryStep? && w.task.Retry? {
      assert RetryStepOf(w, a.available).logs == w.logs;
    }
  }

  lemma OrderlyKeepsDistinct(w: World, v: World, c: LogChange)
    requires AllDistinct(w) && v.logs == Logs(w, c) && Orderly(w, c)
    ensures AllDistinct(v)
  {
    forall k | k in v.logs ensures Distinct(v.logs[k]) {
      assert k in w.logs ==> Distinct(w.logs[k]);
      if c.Append? && c.k == k && k in w.logs { assert !UncommittedIn(w.logs[k], c.o); }
    }
  }

  lemma OrderlyUncommitsNothing(w: World, c: LogChange, o: Origin)
    requires Orderly(w, c) && !c.Append? && HasUncommitted(Logs(w, c), o)
    ensures HasUncommitted(w.logs, o)
  {
    var k :| k in Logs(w, c) && UncommittedIn(Logs(w, c)[k], o);
    assert UncommittedIn(w.logs[k], o);
  }

  // ---------------------------------------------------------------- settled lines stay settled

  /** The next line of a log is unacknowledged. */
  lemma NextIsUncommitted(w: World, k: Key)
    requires LogOf(w, k).committed < |LogOf(w, k).lines|
    ensures HasUncommitted(w.logs, LogOf(w, k).lines[LogOf(w, k).committed])
  {
    assert UncommittedIn(w.logs[k], w.logs[k].lines[w.logs[k].committed]);
  }

  /** A settled receipt with an unacknowledged line is not requeued. */
  lemma SettledStays(w: World, a: Action, o: Origin)
    requires Terminal(w, o) && HasUncommitted(w.logs, o) && RetryReady(w)
    ensures Terminal(Step(w, a), o)
  {
    ReceiptLaw(w, a, o);
  }

  /** A drainer behind stays behind while it keeps its record and the offset does not move. */
  lemma BehindStays(w: World, a: Action, v: World, k: Key)
    requires Behind(w, k) && RetryReady(w) && LogsWellFormed(w) && v == Step(w, a)
    requires k in v.drainers && !v.drainers[k].Idle? && v.drainers[k].pos == w.drainers[k].pos
    requires w.drainers[k].DeadLettered? ==> v.drainers[k].DeadLettered?
    requires LogOf(w, k).lines <= LogOf(v, k).lines && LogOf(v, k).committed == LogOf(w, k).committed
    ensures Behind(v, k)
  {
    var l := w.logs[k];
    assert LogWellFormed(w, k);
    NextIsUncommitted(w, k);
    SettledStays(w, a, l.lines[l.committed]);
    ReceiptLaw(w, a, l.lines[w.drainers[k].pos]);
  }

  /** A busy drainer becomes idle or keeps its record, with the log as it was. */
  ghost predicate KeepsRecord(w: World, v: World, k: Key) {
    k in w.drainers && !w.drainers[k].Idle? ==>
      && k in v.drainers
      && (v.drainers[k].Idle? || (
          && v.drainers[k].pos == w.drainers[k].pos && LogOf(v, k) == LogOf(w, k)
          && (w.drainers[k].DeadLettered? ==> v.drainers[k].DeadLettered?)))
  }

  lemma OthersKeepRecord(w: World, a: Action, k: Key)
    requires IsRecordAction(a) && a.k != k
    ensures KeepsRecord(w, RecordStep(w, a), k)
  {
    OthersUntouched(w, a, k);
  }

  lemma OwnKeepsRecord(w: World, a: Action, k: Key)
    requires IsRecordAction(a) && a.k == k
    ensures KeepsRecord(w, RecordStep(w, a), k)
  {
  }

  lemma SettleKeepsRecord(w: World, a: Action, k: Key)
    ensures KeepsRecord(w, SettleStep(w, a), k)
  {
  }

  lemma DrainerKeepsRecord(w: World, a: Action, k: Key)
    requires IsDrainerAction(a)
    ensures KeepsRecord(w, DrainerStep(w, a), k)
  {
    if !IsRecordAction(a) {
      SettleKeepsRecord(w, a, k);
    } else if a.k == k {
      OwnKeepsRecord(w, a, k);
    } else {
      OthersKeepRecord(w, a, k);
    }
  }

  lemma DrainerInStep(w: World, a: Action, k: Key)
    requires InStep(w, k) && IsDrainerAction(a)
    ensures InStep(DrainerStep(w, a), k)
  {
    if k in w.drainers && !w.drainers[k].Idle? {
      DrainerKeepsRecord(w, a, k);
    } else {
      IdleInStep(w, a, k);
    }
  }

  lemma IdleInStep(w: World, a: Action, k: Key)
    requires IsDrainerAction(a) && DrainerOf(w, k).Idle?
    ensures InStep(DrainerStep(w, a), k)
  {
    if !IsRecordAction(a) {
      IdleSettles(w, a, k);
    } else if a.k != k {
      OthersUntouched(w, a, k);
    } else {
      IdleReads(w, a);
    }
  }

  lemma IdleSettles(w: World, a: Action, k: Key)
    requires DrainerOf(w, k).Idle?
    ensures InStep(SettleStep(w, a), k)
  {
  }

  lemma IdleReads(w: World, a: Action)
    requires IsRecordAction(a) && DrainerOf(w, a.k).Idle?
    ensures InStep(RecordStep(w, a), a.k)
  {
  }

  lemma BehindPlaced(w: World, a: Action, v: World, k: Key)
    requires Behind(w, k) && RetryReady(w) && LogsWellFormed(w) && v == Step(w, a) && KeepsRecord(w, v, k)
    ensures Placed(v, k)
  {
    if !v.drainers[k].Idle? {
      BehindStays(w, a, v, k);
    }
  }

  lemma DrainerPlaced(w: World, a: Action, k: Key)
    requires Placed(w, k) && RetryReady(w) && LogsWellFormed(w) && IsDrainerAction(a)
    ensures Placed(DrainerStep(w, a), k)
  {
    if InStep(w, k) {
      DrainerInStep(w, a, k);
    } else {
      DrainerKeepsRecord(w, a, k);
      BehindPlaced(w, a, DrainerStep(w, a), k);
    }
  }

  // ---------------------------------------------------------------- steps of the lock holder

  lemma StillPlaced(w: World, a: Action, k: Key)
    requires Placed(w, k) && RetryReady(w) && LogsWellFormed(w)
    requires var v := Step(w, a);
             && (v.drainers == w.drainers || (k in v.drainers && v.drainers[k].Idle?))
             && LogOf(w, k).lines <= LogOf(v, k).lines && LogOf(v, k).committed == LogOf(w, k).committed
    ensures Placed(Step(w, a), k)
  {
    if !InStep(w, k) && Step(w, a).drainers == w.drainers {
      BehindStays(w, a, Step(w, a), k);
    }
  }

  /** The operator's acknowledgement leaves a drainer idle or, if it harms nobody, behind. */
  lemma AcknowledgedPlaced(w: World)
    requires LinesInv(w) && w.task.Operator? && w.task.opc.AtCommit? && !Harms(w, OperatorStep)
    ensures Placed(OperatorStepOf(w), w.receipts[w.task.origin].key)
  {
    var k, v := w.receipts[w.task.origin].key, OperatorStepOf(w);
    if k in w.drainers && !w.drainers[k].Idle? {
      assert DrainerOk(w, k);
      assert LogWellFormed(w, k);
      assert Behind(v, k);
    }
  }

  lemma OperatorPlaced(w: World, k: Key)
    requires LinesInv(w) && w.task.Operator? && !Harms(w, OperatorStep)
    ensures Placed(OperatorStepOf(w), k)
  {
    var c := OperatorLogs(w);
    assert Step(w, OperatorStep) == OperatorStepOf(w);
    if c.Offset? && c.k == k {
      AcknowledgedPlaced(w);
    } else {
      StillPlaced(w, OperatorStep, k);
    }
  }

  lemma PassPlaced(w: World, claimed: bool, k: Key)
    requires LinesInv(w) && w.task.Pass?
    ensures Placed(PassStepOf(w, claimed), k)
  {
    var c := PassLogs(w, claimed);
    assert Step(w, PassStep(claimed)) == PassStepOf(w, claimed);
    StillPlaced(w, PassStep(claimed), k);
  }

  lemma TaskPlaced(w: World, a: Action, k: Key)
    requires LinesInv(w) && !IsDrainerAction(a) && !(a.Pause? || a.Resume? || a.Crash?) && !Harms(w, a)
    ensures Placed(TaskStep(w, a), k)
  {
    assert Step(w, a) == TaskStep(w, a);
    if a.OperatorStep? && w.task.Operator? {
      OperatorPlaced(w, k);
    } else if a.PassStep? && w.task.Pass? {
      PassPlaced(w, a.claimed, k);
    } else if a.AbortTask? {
      AbortPlaced(w, k);
    } else {
      OtherTaskLogs(w, a);
      StillPlaced(w, a, k);
    }
  }

  lemma AbortPlaced(w: World, k: Key)
    requires Placed(w, k) && RetryReady(w) && LogsWellFormed(w)
    ensures Placed(TaskStep(w, AbortTask), k)
  {
    var v := TaskStep(w, AbortTask);
    assert Step(w, AbortTask) == v;
    if w.task.Ack? && w.task.key == k {
      assert v.drainers[k].Idle?;
    } else if !InStep(w, k) {
      BehindStays(w, AbortTask, v, k);
    }
  }

  // ---------------------------------------------------------------- what the lock holder knows

  lemma DrainerKeepsTask(w: World, a: Action)
    requires IsDrainerAction(a)
    ensures var t := DrainerStep(w, a).task; t == w.task || t.NoTask? || t.Ack?
  {
  }

  lemma DrainerKeepsReady(w: World, a: Action)
    requires LinesInv(w) && IsDrainerAction(a)
    ensures TaskReady(DrainerStep(w, a))
  {
    var v := DrainerStep(w, a);
    DrainerKeepsTask(w, a);
    if v.task == w.task {
      var c := DrainerLogs(w, a);
      ReadyWithoutAppend(w, v, c);
      if w.task.Operator? {
        DrainerKeepsOperator(w, a);
      }
    }
  }

  lemma ReadyWithoutAppend(w: World, v: World, c: LogChange)
    requires AppendReady(w) && RetryReady(w) && v.task == w.task && v.logs == Logs(w, c) && Orderly(w, c) && !c.Append?
    ensures AppendReady(v) && RetryReady(v)
  {
    if Appends(w.task) && HasUncommitted(v.logs, w.task.todo[0].origin) {
      OrderlyUncommitsNothing(w, c, w.task.todo[0].origin);
    }
    if w.task.Retry? && HasUncommitted(v.logs, w.task.origin) {
      OrderlyUncommitsNothing(w, c, w.task.origin);
    }
  }

  lemma DrainerKeepsOperator(w: World, a: Action)
    requires LinesInv(w) && IsDrainerAction(a) && w.task.Operator? && DrainerStep(w, a).task == w.task
    ensures OperatorReady(DrainerStep(w, a))
  {
    if !w.task.opc.AtInspect? {
      var o := w.task.origin;
      DrainerInStep(w, a, w.receipts[o].key);
      DrainersWaitOnOperator(w, a);
    }
  }

  /** While the operator holds the pause guard no drainer marks a receipt. */
  lemma DrainersWaitOnOperator(w: World, a: Action)
    requires DrainersOk(w) && IsDrainerAction(a) && w.guard.ByTask? && !w.task.Ack?
    ensures DrainerStep(w, a).receipts == w.receipts && w.dead <= DrainerStep(w, a).dead
  {
    if IsRecordAction(a) {
      assert a.k in w.drainers ==> DrainerOk(w, a.k);
      UnguardedStep(w, a);
    } else {
      assert SettleStep(w, a).receipts == w.receipts;
    }
  }

  /** A line is appended only after the queue was read as holding no
      unacknowledged line of its origin. */
  lemma PassKeepsReady(w: World, claimed: bool)
    requires w.task.Pass? && AppendReady(w) && (w.task.todo != [] ==> w.task.todo[0].origin in w.receipts)
    ensures TaskReady(PassStepOf(w, claimed))
  {
    if w.task.todo != [] && IsRead(w.task.pc) {
      assert PassStepOf(w, claimed) == w.(task := AfterRead(w, claimed));
      ReadKeepsReady(w, claimed);
    }
  }

  lemma ReadKeepsReady(w: World, claimed: bool)
    requires w.task.Pass? && w.task.todo != [] && IsRead(w.task.pc) && AppendReady(w)
    ensures var t := AfterRead(w, claimed); (t.Pass? || t.NoTask?) && AppendReady(w.(task := t))
  {
  }

  lemma NewOriginHasNoLine(w: World, o: Origin)
    requires LogsWellFormed(w) && HasUncommitted(w.logs, o)
    ensures o in w.receipts
  {
    var k :| k in w.logs && UncommittedIn(w.logs[k], o);
    assert LogWellFormed(w, k);
  }

  lemma RetryKeepsReady(w: World, available: bool)
    requires w.task.Retry? && RetryReady(w)
    ensures TaskReady(RetryStepOf(w, available))
  {
  }

  /** A drainer that is behind has a settled line next, which the inspection refuses. */
  lemma OperatorKeepsReady(w: World)
    requires LinesInv(w) && w.task.Operator?
    ensures TaskReady(OperatorStepOf(w))
  {
    var o := w.task.origin;
    if w.task.opc.AtInspect? && o in w.receipts {
      assert Placed(w, w.receipts[o].key);
    }
  }

  lemma TaskKeepsReady(w: World, a: Action)
    requires LinesInv(w) && !IsDrainerAction(a)
    ensures TaskReady(TaskStep(w, a))
  {
    if a.PassStep? && w.task.Pass? {
      PassKeepsReady(w, a.claimed);
    } else if a.RetryStep? && w.task.Retry? {
      RetryKeepsReady(w, a.available);
    } else if a.OperatorStep? && w.task.Operator? {
      OperatorKeepsReady(w);
    } else if !a.AbortTask? {
      StartKeepsReady(w, a);
    }
  }

  lemma StartKeepsReady(w: World, a: Action)
    requires LinesInv(w) && !IsDrainerAction(a) && !a.AbortTask? && !(a.PassStep? && w.task.Pass?)
    requires !(a.RetryStep? && w.task.Retry?) && !(a.OperatorStep? && w.task.Operator?)
    ensures TaskReady(TaskStep(w, a))
  {
    if a.Admit? && HasUncommitted(w.logs, a.o) {
      NewOriginHasNoLine(w, a.o);
    }
  }

  lemma TaskLogs(w: World, a: Action) returns (c: LogChange)
    requires LinesInv(w) && !IsDrainerAction(a)
    ensures TaskStep(w, a).logs == Logs(w, c) && Orderly(w, c)
  {
    if a.OperatorStep? && w.task.Operator? {
      c := OperatorLogs(w);
    } else if a.PassStep? && w.task.Pass? {
      c := PassLogs(w, a.claimed);
    } else {
      OtherTaskLogs(w, a);
      c := SameLogs;
    }
  }

  // ---------------------------------------------------------------- runs

  lemma OutsideKeepsLines(w: World, a: Action)
    requires LinesInv(w) && (a.Pause? || a.Resume? || a.Crash?) && Inv(Step(w, a))
    ensures LinesInv(Step(w, a))
  {
    var v := Step(w, a);
    forall k ensures Placed(v, k) { assert Placed(w, k); }
  }

  lemma StepLogs(w: World, a: Action) returns (c: LogChange)
    requires LinesInv(w)
    ensures Step(w, a).logs == Logs(w, c) && Orderly(w, c)
  {
    if a.Pause? || a.Resume? || a.Crash? {
      c := SameLogs;
    } else if IsDrainerAction(a) {
      c := DrainerLogs(w, a);
    } else {
      c := TaskLogs(w, a);
    }
  }

  lemma StepKeepsLines(w: World, a: Action)
    requires LinesInv(w) && !Harms(w, a)
    ensures LinesInv(Step(w, a))
  {
    StepKeepsInv(w, a);
    if a.Pause? || a.Resume? || a.Crash? {
      OutsideKeepsLines(w, a);
    } else {
      var c := StepLogs(w, a);
      OrderlyKeepsDistinct(w, Step(w, a), c);
      if IsDrainerAction(a) {
        DrainerKeepsReady(w, a);
        forall k ensures Placed(Step(w, a), k) { DrainerPlaced(w, a, k); }
      } else {
        TaskKeepsReady(w, a);
        forall k ensures Placed(Step(w, a), k) { TaskPlaced(w, a, k); }
      }
    }
  }

  /** In every run in which no operator acknowledgement is harmful, no origin ever has two
      unacknowledged lines. */
  lemma {:induction false} LinesStayDistinct(w: World, actions: seq<Action>)
    requires LinesInv(w) && NeverHarms(w, actions)
    ensures LinesInv(Run(w, actions))
    decreases |actions|
  {
    if actions == [] {
    } else {
      StepKeepsLines(w, actions[0]);
      LinesStayDistinct(Step(w, actions[0]), actions[1..]);
    }
  }

  lemma InitLines(w: World)
    requires Init(w) && AllDistinct(w)
    ensures LinesInv(w)
  {
    InitInv(w);
  }

  lemma OneUnacknowledgedLine(w: World, actions: seq<Action>)
    requires Init(w) && AllDistinct(w) && NeverHarms(w, actions)
    ensures AllDistinct(Run(w, actions))
  {
    InitLines(w);
    LinesStayDistinct(w, actions);
  }
}
