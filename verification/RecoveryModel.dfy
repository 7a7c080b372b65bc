/** The native recovery protocol as a system of atomic steps.

    A step is one durable read or write of the original, or one acquisition or
    release of the locks that order them. Any step of any activity may follow
    any other as far as the locks allow, and `Crash` may fall between any two.

    Durable state: the receipt ledger, the recovery spool (one log and one
    committed offset per worker key), dead letters and retry audits. Volatile
    state: the pause flag, one drainer per worker key and the activity that
    holds the quarantine/retry lock. `flushed` is a history variable: the
    origins whose event reached the graph since their receipt was last requeued.
 */
module RecoveryModel {
  import opened ReceiptStates

  type Key = string

  /** `sessionEnd` says that the event ends its session: the drain loop flushes
      it but leaves it unacknowledged for the session's finalization. */
  datatype Receipt = Receipt(state: ReceiptState, key: Key, sessionEnd: bool)

  /** Lines are named by the origin in their envelope. The offset is counted in lines. */
  datatype Log = Log(lines: seq<Origin>, committed: nat)

  datatype Stage = Entered | Located | Checked | Flushed | Marked

  /** A recovery drainer reads one record at a time, the line at index `pos`. */
  datatype Drainer =
    | Idle
    | Holding(pos: nat)                // record read, handlers running, nothing locked
    | DeadLettered(pos: nat)           // record is in the dead-letter file, not yet acknowledged
    | Guarded(pos: nat, stage: Stage)  // inside the pause guard

  datatype QueueState = Absent | Queued | Committed

  /** One row of the outbox listing: the state is the one seen by the listing. */
  datatype Item = Item(origin: Origin, state: ReceiptState)

  datatype PassPc =
    | AtClaim | AtDeadCheck | AtFirstRead | AtSecondRead | AtEnqueueClaim | AtAppend
    | MarkingQuarantined | MarkingWritten | MarkingPending | MarkingEnqueued

  datatype RetryPc = AtFence | AtCopy | AtRemove | AtRequeue

  /** `end` is the queue cursor returned with the record; None when no record was read. */
  datatype Cursor = NoRecord | End(end: nat)
  datatype OperatorPc = AtInspect | AtDeadLetter(cursor: Cursor) | AtQuarantine(cursor: Cursor) | AtCommit(end: nat)

  datatype Outcome = Settled | Unbridged | Unresolved

  /** The holder of the pause condition. */
  datatype Holder = Nobody | ByDrainer(key: Key) | ByTask

  /** The activity that holds the quarantine/retry lock. */
  datatype Task =
    | NoTask
    | Gather
    | Gathered(captured: set<Origin>, audited: set<Origin>)
    | Pass(todo: seq<Item>, captured: set<Origin>, audited: set<Origin>, bridge: bool,
           done: map<Origin, Outcome>, pc: PassPc)
    | Retry(origin: Origin, rpc: RetryPc)
    | Operator(origin: Origin, opc: OperatorPc)
    | Ack(key: Key, marked: bool)

  datatype World = World(
    receipts: map<Origin, Receipt>,
    logs: map<Key, Log>,
    dead: set<Origin>,
    audits: set<Origin>,
    flushed: set<Origin>,
    paused: bool,
    guard: Holder,
    drainers: map<Key, Drainer>,
    task: Task)

  datatype Action =
    // one drainer
    | Read(k: Key) | EnterGuard(k: Key) | Locate(k: Key) | Check(k: Key) | Flush(k: Key) | MarkFlushed(k: Key)
    | Commit(k: Key) | CommitTerminal(k: Key) | LeaveGuard(k: Key)
    | DeadLetter(k: Key) | StartAck(k: Key) | AckMark | AckCommit
    | StopDrainer(k: Key) | DeleteDrained(k: Key)
    // reconciliation
    | StartReconcile | StartRepair | TakeSnapshot | BeginPass(bridge: bool, order: seq<Origin>)
    | PassStep(claimed: bool)
    // admission, operator retry, operator quarantine
    | Admit(o: Origin, k: Key, sessionEnd: bool)
    | StartRetry(o: Origin) | RetryStep(available: bool)
    | StartOperator(o: Origin) | OperatorStep
    // environment
    | AbortTask | Pause | Resume | Crash

  // ---------------------------------------------------------------- reads

  function LogOf(w: World, k: Key): Log {
    if k in w.logs then w.logs[k] else Log([], 0)
  }

  function DrainerOf(w: World, k: Key): Drainer {
    if k in w.drainers then w.drainers[k] else Idle
  }

  /** Some complete line of `o` lies at or past its log's committed offset. */
  predicate HasUncommitted(logs: map<Key, Log>, o: Origin) {
    exists k | k in logs :: UncommittedIn(logs[k], o)
  }

  predicate UncommittedIn(l: Log, o: Origin) {
    exists i | l.committed <= i < |l.lines| :: l.lines[i] == o
  }

  predicate HasLine(logs: map<Key, Log>, o: Origin) {
    exists k | k in logs :: o in logs[k].lines
  }

  /** QueueManager.recovery_origin_commit_state */
  function CommitState(w: World, o: Origin): QueueState {
    if HasUncommitted(w.logs, o) then Queued else if HasLine(w.logs, o) then Committed else Absent
  }

  predicate NonePending(w: World) {
    forall o | o in w.receipts :: !Pending(w.receipts[o].state)
  }

  /** RecoveryReceiptStore.is_flushable */
  predicate Flushable(w: World, o: Origin) {
    o in w.receipts && w.receipts[o].state != Quarantined
  }

  // ---------------------------------------------------------------- writes

  function Mark(w: World, o: Origin, next: ReceiptState): World {
    if o in w.receipts && MarkAllowed(w.receipts[o].state, next) then
      w.(receipts := w.receipts[o := w.receipts[o].(state := next)])
    else w
  }

  function SetOffset(w: World, k: Key, offset: nat): World {
    w.(logs := w.logs[k := LogOf(w, k).(committed := offset)])
  }

  function AppendLine(w: World, k: Key, o: Origin): World {
    w.(logs := w.logs[k := LogOf(w, k).(lines := LogOf(w, k).lines + [o])])
  }

  function SetDrainer(w: World, k: Key, d: Drainer): World {
    w.(drainers := w.drainers[k := d])
  }

  /** The drainer of `k` leaves the pause guard, if it is inside, and becomes `d`. */
  function ReleaseDrainer(w: World, k: Key, d: Drainer): World {
    SetDrainer(w, k, d).(guard := if w.guard == ByDrainer(k) then Nobody else w.guard)
  }

  /** The activity under the lock ends; it may have held the pause guard too. */
  function EndTask(w: World): World {
    w.(task := NoTask, guard := if w.guard == ByTask then Nobody else w.guard)
  }

  // ---------------------------------------------------------------- drainer steps

  /** The steps on the record a drainer holds, up to its acknowledgement or dead-lettering. */
  predicate IsRecordAction(a: Action) {
    a.Read? || a.EnterGuard? || a.Locate? || a.Check? || a.Flush? || a.MarkFlushed? || a.Commit?
    || a.CommitTerminal? || a.LeaveGuard? || a.DeadLetter?
  }

  function DrainerStep(w: World, a: Action): World {
    if IsRecordAction(a) then RecordStep(w, a) else SettleStep(w, a)
  }

  function RecordStep(w: World, a: Action): World {
    match a
    case Read(k) =>
      var l := LogOf(w, k);
      if DrainerOf(w, k).Idle? && l.committed < |l.lines| then SetDrainer(w, k, Holding(l.committed)) else w
    case EnterGuard(k) =>
      if DrainerOf(w, k).Holding? && w.guard.Nobody? && !w.paused
      then SetDrainer(w, k, Guarded(DrainerOf(w, k).pos, Entered)).(guard := ByDrainer(k)) else w
    case Locate(k) =>
      var d, l := DrainerOf(w, k), LogOf(w, k);
      if d.Guarded? && d.stage == Entered && d.pos < |l.lines| then
        if CommitState(w, l.lines[d.pos]) == Queued
        then SetDrainer(w, k, Guarded(d.pos, Located)) else ReleaseDrainer(w, k, Holding(d.pos))
      else w
    case Check(k) =>
      var d, l := DrainerOf(w, k), LogOf(w, k);
      if d.Guarded? && d.stage == Located && d.pos < |l.lines| then
        if Flushable(w, l.lines[d.pos])
        then SetDrainer(w, k, Guarded(d.pos, Checked)) else ReleaseDrainer(w, k, Holding(d.pos))
      else w
    case Flush(k) =>
      var d, l := DrainerOf(w, k), LogOf(w, k);
      if d.Guarded? && d.stage == Checked && d.pos < |l.lines|
      then SetDrainer(w, k, Guarded(d.pos, Flushed)).(flushed := w.flushed + {l.lines[d.pos]}) else w
    case MarkFlushed(k) =>
      var d, l := DrainerOf(w, k), LogOf(w, k);
      if d.Guarded? && d.stage == Flushed && d.pos < |l.lines|
      then Mark(SetDrainer(w, k, Guarded(d.pos, Marked)), l.lines[d.pos], Written) else w
    case Commit(k) =>
      var d := DrainerOf(w, k);
      if d.Guarded? && d.stage == Marked
      then SetOffset(ReleaseDrainer(w, k, Idle), k, d.pos + 1) else w
    case CommitTerminal(k) =>
      // A flushed session end is not marked and not acknowledged: the batch's
      // own start is committed and finalization reads the line again.
      var d, l := DrainerOf(w, k), LogOf(w, k);
      if d.Guarded? && d.stage == Flushed && d.pos < |l.lines|
         && l.lines[d.pos] in w.receipts && w.receipts[l.lines[d.pos]].sessionEnd
      then SetOffset(ReleaseDrainer(w, k, Idle), k, d.pos) else w
    case LeaveGuard(k) =>
      var d := DrainerOf(w, k);
      if d.Guarded? then ReleaseDrainer(w, k, Holding(d.pos)) else w
    case DeadLetter(k) =>
      var d, l := DrainerOf(w, k), LogOf(w, k);
      if d.Holding? && d.pos < |l.lines|
      then SetDrainer(w, k, DeadLettered(d.pos)).(dead := w.dead + {l.lines[d.pos]}) else w
    case _ => w
  }

  /** The acknowledgement of a dead letter, and the end of a drainer or of a drained log. */
  function SettleStep(w: World, a: Action): World {
    match a
    case StartAck(k) =>
      if DrainerOf(w, k).DeadLettered? && w.task.NoTask? && w.guard.Nobody? && !w.paused
      then w.(task := Ack(k, false), guard := ByTask) else w
    case AckMark =>
      if w.task.Ack? && !w.task.marked && DrainerOf(w, w.task.key).DeadLettered?
         && DrainerOf(w, w.task.key).pos < |LogOf(w, w.task.key).lines|
      then Mark(w, LogOf(w, w.task.key).lines[DrainerOf(w, w.task.key).pos], Quarantined)
           .(task := Ack(w.task.key, true))
      else w
    case AckCommit =>
      if w.task.Ack? && w.task.marked && DrainerOf(w, w.task.key).DeadLettered?
      then EndTask(SetOffset(SetDrainer(w, w.task.key, Idle), w.task.key, DrainerOf(w, w.task.key).pos + 1))
      else w
    case StopDrainer(k) =>
      if w.task.Ack? && w.task.key == k then EndTask(SetDrainer(w, k, Idle)) else ReleaseDrainer(w, k, Idle)
    case DeleteDrained(k) =>
      if DrainerOf(w, k).Idle? && |LogOf(w, k).lines| <= LogOf(w, k).committed
      then w.(logs := w.logs - {k}) else w
    case _ => w
  }

  // ---------------------------------------------------------------- outbox reconciliation

  function RetryPendingOrigins(w: World): set<Origin> {
    set o | o in w.receipts && w.receipts[o].state == RetryPending
  }

  /** `order` lists every pending receipt once, as the outbox query does in row order. */
  predicate ListsPending(w: World, order: seq<Origin>) {
    && (forall i | 0 <= i < |order| :: order[i] in w.receipts && Pending(w.receipts[order[i]].state))
    && (forall o | o in w.receipts && Pending(w.receipts[o].state) :: o in order)
    && (forall i, j | 0 <= i < j < |order| :: order[i] != order[j])
  }

  function Items(w: World, order: seq<Origin>): (items: seq<Item>)
    requires forall i | 0 <= i < |order| :: order[i] in w.receipts
    ensures |items| == |order|
    ensures forall i | 0 <= i < |items| :: items[i] == Item(order[i], w.receipts[order[i]].state)
  {
    if order == [] then [] else
    [Item(order[0], w.receipts[order[0]].state)] + Items(w, order[1..])
  }

  /** The head item of the listing moves to another point of the loop body. */
  function Goto(t: Task, pc: PassPc): Task
    requires t.Pass?
  {
    t.(pc := pc)
  }

  /** The head item of the listing is finished. */
  function Finish(t: Task, outcome: Outcome): Task
    requires t.Pass? && t.todo != []
  {
    t.(todo := t.todo[1..], done := t.done[t.todo[0].origin := outcome], pc := AtClaim)
  }

  predicate IsRead(pc: PassPc) {
    pc.AtClaim? || pc.AtDeadCheck? || pc.AtFirstRead? || pc.AtSecondRead? || pc.AtEnqueueClaim?
  }

  /** The points of the loop body that only read, and where each leads. */
  function AfterRead(w: World, claimed: bool): Task
    requires w.task.Pass? && w.task.todo != [] && IsRead(w.task.pc)
  {
    var t := w.task;
    var o, st := t.todo[0].origin, t.todo[0].state;
    match t.pc
    case AtClaim => if claimed then Goto(t, AtDeadCheck) else Finish(t, Unresolved)
    case AtDeadCheck =>
      if o in w.dead then Goto(t, MarkingQuarantined)
      else if st == RetryPending && !(t.bridge && o in t.captured) then Finish(t, Unbridged)
      else Goto(t, if st == Enqueued then AtFirstRead else AtSecondRead)
    case AtFirstRead => AfterFirstRead(t, CommitState(w, o))
    case AtSecondRead => AfterSecondRead(t, CommitState(w, o))
    case AtEnqueueClaim => if claimed then Goto(t, AtAppend) else Finish(t, Unresolved)
  }

  /** The queue state of a receipt listed as enqueued. */
  function AfterFirstRead(t: Task, queue: QueueState): Task
    requires t.Pass? && t.todo != []
  {
    match queue
    case Committed => Goto(t, MarkingWritten)
    case Queued => Finish(t, Settled)
    case Absent => Goto(t, MarkingPending)
  }

  /** A retry's acknowledged line is the quarantined delivery's, and only a retry
      audit allows a fresh line; without one the pass raises RecoveryReceiptError. */
  function AfterSecondRead(t: Task, queue: QueueState): Task
    requires t.Pass? && t.todo != []
  {
    match queue
    case Committed =>
      if t.todo[0].state != RetryPending then Goto(t, MarkingWritten)
      else if t.todo[0].origin in t.audited then Goto(t, AtEnqueueClaim)
      else NoTask
    case Queued => Goto(t, MarkingEnqueued)
    case Absent => Goto(t, AtEnqueueClaim)
  }

  /** The receipt state a marking point writes. */
  function MarkTarget(pc: PassPc): ReceiptState {
    match pc
    case MarkingQuarantined => Quarantined
    case MarkingWritten => Written
    case MarkingPending => PendingEnqueue
    case _ => Enqueued
  }

  /** One step of the loop body on the listing's head item. */
  function PassStepOf(w: World, claimed: bool): World
    requires w.task.Pass?
  {
    var t := w.task;
    if t.todo == [] then w.(task := NoTask)
    else if IsRead(t.pc) then w.(task := AfterRead(w, claimed))
    else if t.pc == AtAppend then
      if t.todo[0].origin in w.receipts
      then AppendLine(w, w.receipts[t.todo[0].origin].key, t.todo[0].origin).(task := Goto(t, MarkingEnqueued))
      else w
    else
      Mark(w, t.todo[0].origin, MarkTarget(t.pc))
      .(task := if t.pc == MarkingPending then Goto(t, AtSecondRead) else Finish(t, Settled))
  }

  function TaskStep(w: World, a: Action): World {
    match a
    case StartReconcile => if w.task.NoTask? then w.(task := Gather) else w
    case StartRepair => if w.task.NoTask? then w.(task := Gathered({}, {})) else w
    case TakeSnapshot =>
      if w.task.Gather?
      then w.(task := Gathered(RetryPendingOrigins(w), RetryPendingOrigins(w) * w.audits)) else w
    case BeginPass(bridge, order) =>
      if w.task.Gathered? && ListsPending(w, order) && (bridge ==> w.task.captured != {} && !w.paused)
      then w.(task := Pass(Items(w, order), w.task.captured, w.task.audited, bridge, map[], AtClaim)) else w
    case PassStep(claimed) => if w.task.Pass? then PassStepOf(w, claimed) else w
    case Admit(o, k, sessionEnd) =>
      if w.task.NoTask? && o !in w.receipts && NonePending(w) && !w.paused
      then w.(receipts := w.receipts[o := Receipt(PendingEnqueue, k, sessionEnd)],
              task := Pass([Item(o, PendingEnqueue)], {}, {}, false, map[], AtEnqueueClaim))
      else w
    case StartRetry(o) =>
      if w.task.NoTask? && o in w.receipts && w.receipts[o].state == Quarantined
      then w.(task := Retry(o, AtFence)) else w
    case RetryStep(available) => if w.task.Retry? then RetryStepOf(w, available) else w
    case StartOperator(o) =>
      if w.task.NoTask? && w.guard.Nobody? && w.paused
      then w.(task := Operator(o, AtInspect), guard := ByTask) else w
    case OperatorStep => if w.task.Operator? then OperatorStepOf(w) else w
    case AbortTask =>
      // an exception leaves the lock; an interrupted acknowledgement stops its drainer
      EndTask(if w.task.Ack? then SetDrainer(w, w.task.key, Idle) else w)
    case _ => w
  }

  // ---------------------------------------------------------------- operator retry and quarantine

  function RetryStepOf(w: World, available: bool): World
    requires w.task.Retry?
  {
    var o := w.task.origin;
    match w.task.rpc
    case AtFence => w.(task := if CommitState(w, o) == Queued then NoTask else Retry(o, AtCopy))
    case AtCopy => w.(audits := if o in w.dead then w.audits + {o} else w.audits, task := Retry(o, AtRemove))
    case AtRemove => w.(dead := w.dead - {o}, task := Retry(o, AtRequeue))
    case AtRequeue =>
      if available && !w.paused && NonePending(w) && o in w.receipts && w.receipts[o].state == Quarantined
      then w.(receipts := w.receipts[o := w.receipts[o].(state := RetryPending)],
              flushed := w.flushed - {o}, task := Gather)
      else w.(task := NoTask)
  }

  function OperatorStepOf(w: World): World
    requires w.task.Operator?
  {
    var o := w.task.origin;
    match w.task.opc
    case AtInspect =>
      if o !in w.receipts || !Pending(w.receipts[o].state) then EndTask(w)
      else if CommitState(w, o) == Committed && o !in w.audits then EndTask(w)
      else
        var l := LogOf(w, w.receipts[o].key);
        if |l.lines| <= l.committed then w.(task := Operator(o, AtDeadLetter(NoRecord)))
        else if l.lines[l.committed] != o then EndTask(w)
        else w.(task := Operator(o, AtDeadLetter(End(l.committed + 1))))
    case AtDeadLetter(cursor) => w.(dead := w.dead + {o}, task := Operator(o, AtQuarantine(cursor)))
    case AtQuarantine(cursor) =>
      var v := if o in w.receipts && Pending(w.receipts[o].state) then Mark(w, o, Quarantined) else w;
      if cursor.End? then v.(task := Operator(o, AtCommit(cursor.end))) else EndTask(v)
    case AtCommit(end) =>
      EndTask(if o in w.receipts then SetOffset(w, w.receipts[o].key, end) else w)
  }

  // ---------------------------------------------------------------- the whole system

  function Step(w: World, a: Action): World {
    match a
    case Pause => if w.guard.Nobody? then w.(paused := true) else w
    case Resume => if w.guard.Nobody? then w.(paused := false) else w
    case Crash => w.(paused := false, guard := Nobody, drainers := map[], task := NoTask)
    case _ => if IsDrainerAction(a) then DrainerStep(w, a) else TaskStep(w, a)
  }

  predicate IsDrainerAction(a: Action) {
    IsRecordAction(a) || a.StartAck? || a.AckMark? || a.AckCommit? || a.StopDrainer? || a.DeleteDrained?
  }

  function Run(w: World, actions: seq<Action>): World
    decreases |actions|
  {
    if actions == [] then w else Run(Step(w, actions[0]), actions[1..])
  }

  /** A quiescent process over durable state that may predate it. An earlier
      server acknowledged a line before it recorded the receipt's outcome, so a
      pending receipt may have only acknowledged lines, but then its delivery
      was flushed or dead-lettered. The empty ledger is one such state. */
  predicate Init(w: World) {
    && w.task.NoTask? && w.guard.Nobody? && w.drainers == map[] && !w.paused
    && LogsWellFormed(w)
    && (forall o | o in w.receipts :: Accounted(w, o))
  }

  predicate LogsWellFormed(w: World) {
    forall k | k in w.logs :: LogWellFormed(w, k)
  }

  /** An origin's lines are all in the log of its receipt's worker key. */
  predicate LogWellFormed(w: World, k: Key)
    requires k in w.logs
  {
    && w.logs[k].committed <= |w.logs[k].lines|
    && forall i | 0 <= i < |w.logs[k].lines| ::
         w.logs[k].lines[i] in w.receipts && w.receipts[w.logs[k].lines[i]].key == k
  }

  /** A written receipt's event was flushed since its last requeue. */
  predicate Accounted(w: World, o: Origin)
    requires o in w.receipts
  {
    && (w.receipts[o].state == Written ==> o in w.flushed)
    && (Evidenced(w, o) || o in w.dead)
  }

  /** Acknowledged lines alone never stand for an unflushed admission. */
  predicate Evidenced(w: World, o: Origin)
    requires o in w.receipts
  {
    w.receipts[o].state in {PendingEnqueue, Enqueued} && HasLine(w.logs, o) && !HasUncommitted(w.logs, o)
    ==> o in w.flushed
  }
}
