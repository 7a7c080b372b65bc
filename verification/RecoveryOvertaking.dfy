/** Exactly which operator acknowledgements can lead to two unacknowledged lines of one
    origin: the harmful ones. Each can be continued to such a state, whatever else the
    system holds; and after any other acknowledgement the record that was overtaken plays
    no part in one. */
module RecoveryOvertaking {
  import opened ReceiptStates
  import opened RecoveryModel
  import opened RecoverySafety
  import opened RecoveryTasks
  import opened RecoveryTheorems
  import opened RecoveryLines

  // ---------------------------------------------------------------- sequences of steps

  lemma {:induction false} RunConcat(w: World, a: seq<Action>, b: seq<Action>)
    ensures Run(w, a + b) == Run(Run(w, a), b)
    decreases |a|
  {
    if a == [] {
      assert a + b == b;
    } else {
      assert (a + b)[1..] == a[1..] + b;
      RunConcat(Step(w, a[0]), a[1..], b);
    }
  }

  lemma RunOne(w: World, a: Action)
    ensures Run(w, [a]) == Step(w, a)
  {
    assert [a][1..] == [];
  }

  lemma RunTwo(w: World, a: Action, b: Action)
    ensures Run(w, [a, b]) == Step(Step(w, a), b)
  {
    assert [a, b] == [a] + [b];
    RunOne(w, a);
    RunSnoc(w, [a], b);
  }

  lemma RunThree(w: World, a: Action, b: Action, c: Action)
    ensures Run(w, [a, b, c]) == Step(Step(Step(w, a), b), c)
  {
    assert [a, b, c] == [a, b] + [c];
    RunTwo(w, a, b);
    RunSnoc(w, [a, b], c);
  }

  lemma RunFour(w: World, a: Action, b: Action, c: Action, d: Action)
    ensures Run(w, [a, b, c, d]) == Step(Step(Step(Step(w, a), b), c), d)
  {
    assert [a, b, c, d] == [a, b, c] + [d];
    RunThree(w, a, b, c);
    RunSnoc(w, [a, b, c], d);
  }

  // ---------------------------------------------------------------- an acknowledgement and a retry

  /** The operator is about to acknowledge the only unacknowledged line of `o`. */
  ghost predicate AboutToAcknowledge(w: World, o: Origin) {
    && o in w.receipts && w.receipts[o].state == Quarantined && o in w.dead && NonePending(w)
    && w.guard == ByTask
    && var k := w.receipts[o].key;
       && k in w.logs && w.logs[k].committed < |w.logs[k].lines| && w.logs[k].lines[w.logs[k].committed] == o
       && w.task == Operator(o, AtCommit(w.logs[k].committed + 1))
       && !HasUncommitted(w.logs[k := w.logs[k].(committed := w.logs[k].committed + 1)], o)
  }

  /** After the acknowledgement and a resume. */
  ghost function Acknowledged(w: World, o: Origin): World
    requires AboutToAcknowledge(w, o)
  {
    var k := w.receipts[o].key;
    w.(logs := w.logs[k := w.logs[k].(committed := w.logs[k].committed + 1)],
       paused := false, guard := Nobody, task := NoTask)
  }

  /** After the operator's retry: requeued, bridged by a pass, and enqueued once more. */
  ghost function Requeued(w: World, o: Origin): World
    requires AboutToAcknowledge(w, o)
  {
    var v, k := Acknowledged(w, o), w.receipts[o].key;
    v.(receipts := w.receipts[o := w.receipts[o].(state := Enqueued)],
       logs := v.logs[k := v.logs[k].(lines := v.logs[k].lines + [o])],
       dead := w.dead - {o}, audits := w.audits + {o}, flushed := w.flushed - {o})
  }

  ghost function RetrySteps(o: Origin): seq<Action> {
    [StartRetry(o), RetryStep(true), RetryStep(true)] + [RetryStep(true), RetryStep(true), TakeSnapshot]
  }

  ghost function PassSteps(o: Origin): seq<Action> {
    [BeginPass(true, [o]), PassStep(true), PassStep(true)] + [PassStep(true), PassStep(true)]
    + [PassStep(true), PassStep(true), PassStep(true)]
  }

  ghost function RetryRound(o: Origin): seq<Action> { [Resume] + RetrySteps(o) + PassSteps(o) }

  lemma AcknowledgeSteps(w: World, o: Origin)
    requires AboutToAcknowledge(w, o)
    ensures Step(Step(w, OperatorStep), Resume) == Acknowledged(w, o)
  {
  }

  lemma FenceSteps(v: World, o: Origin)
    requires v.task.NoTask? && o in v.receipts && v.receipts[o].state == Quarantined && CommitState(v, o) != Queued
    requires o in v.dead
    ensures Step(Step(Step(v, StartRetry(o)), RetryStep(true)), RetryStep(true))
            == v.(audits := v.audits + {o}, task := Retry(o, AtRemove))
  {
    assert Step(Step(v, StartRetry(o)), RetryStep(true)) == v.(task := Retry(o, AtCopy));
  }

  lemma RequeueSteps(v: World, o: Origin)
    requires v.task == Retry(o, AtRemove) && !v.paused && NonePending(v)
    requires o in v.receipts && v.receipts[o].state == Quarantined && o in v.audits
    ensures Step(Step(Step(v, RetryStep(true)), RetryStep(true)), TakeSnapshot)
            == v.(receipts := v.receipts[o := v.receipts[o].(state := RetryPending)],
                  dead := v.dead - {o}, flushed := v.flushed - {o}, task := Gathered({o}, {o}))
  {
    var u := Step(Step(v, RetryStep(true)), RetryStep(true));
    assert RetryPendingOrigins(u) == {o};
    assert {o} * u.audits == {o};
  }

  ghost function RetryGathered(w: World, o: Origin): World
    requires AboutToAcknowledge(w, o)
  {
    Acknowledged(w, o).(receipts := w.receipts[o := w.receipts[o].(state := RetryPending)],
                        dead := w.dead - {o}, audits := w.audits + {o}, flushed := w.flushed - {o},
                        task := Gathered({o}, {o}))
  }

  lemma RetryStage(w: World, o: Origin)
    requires AboutToAcknowledge(w, o)
    ensures Run(Acknowledged(w, o), RetrySteps(o)) == RetryGathered(w, o)
  {
    var v := Acknowledged(w, o);
    FenceSteps(v, o);
    var u := v.(audits := v.audits + {o}, task := Retry(o, AtRemove));
    RequeueSteps(u, o);
    RunThree(v, StartRetry(o), RetryStep(true), RetryStep(true));
    RunThree(u, RetryStep(true), RetryStep(true), TakeSnapshot);
    RunConcat(v, [StartRetry(o), RetryStep(true), RetryStep(true)], [RetryStep(true), RetryStep(true), TakeSnapshot]);
  }

  ghost function Bridging(o: Origin, pc: PassPc): Task {
    Pass([Item(o, RetryPending)], {o}, {o}, true, map[], pc)
  }

  lemma BeginSteps(v: World, o: Origin)
    requires v.task == Gathered({o}, {o}) && !v.paused && o in v.receipts && v.receipts[o].state == RetryPending
    requires OnePending(v) && o !in v.dead
    ensures Step(Step(Step(v, BeginPass(true, [o])), PassStep(true)), PassStep(true)) == v.(task := Bridging(o, AtSecondRead))
  {
    Listed(v, o);
    var v1 := v.(task := Bridging(o, AtClaim));
    assert Step(v, BeginPass(true, [o])) == v1;
    ClaimSteps(v1, o);
  }

  lemma Listed(v: World, o: Origin)
    requires o in v.receipts && v.receipts[o].state == RetryPending && OnePending(v)
    ensures ListsPending(v, [o]) && Items(v, [o]) == [Item(o, RetryPending)]
  {
  }

  lemma ClaimSteps(v: World, o: Origin)
    requires v.task == Bridging(o, AtClaim) && o !in v.dead
    ensures Step(Step(v, PassStep(true)), PassStep(true)) == v.(task := Bridging(o, AtSecondRead))
  {
    assert Step(v, PassStep(true)) == v.(task := Bridging(o, AtDeadCheck));
  }

  lemma AuditedSteps(v: World, o: Origin)
    requires v.task == Bridging(o, AtSecondRead) && CommitState(v, o) == Committed
    ensures Step(Step(v, PassStep(true)), PassStep(true)) == v.(task := Bridging(o, AtAppend))
  {
    assert Step(v, PassStep(true)) == v.(task := Bridging(o, AtEnqueueClaim));
  }

  lemma AppendSteps(v: World, o: Origin)
    requires v.task == Bridging(o, AtAppend)
    requires o in v.receipts && v.receipts[o].state == RetryPending && v.receipts[o].key in v.logs
    ensures var k := v.receipts[o].key;
            Step(Step(Step(v, PassStep(true)), PassStep(true)), PassStep(true))
            == v.(receipts := v.receipts[o := v.receipts[o].(state := Enqueued)],
                  logs := v.logs[k := v.logs[k].(lines := v.logs[k].lines + [o])], task := NoTask)
  {
    var u := AppendLine(v, v.receipts[o].key, o).(task := Bridging(o, MarkingEnqueued));
    assert Step(v, PassStep(true)) == u;
    MarkEnqueuedSteps(u, o);
  }

  lemma MarkEnqueuedSteps(u: World, o: Origin)
    requires u.task == Bridging(o, MarkingEnqueued) && o in u.receipts && u.receipts[o].state == RetryPending
    ensures Step(Step(u, PassStep(true)), PassStep(true))
            == u.(receipts := u.receipts[o := u.receipts[o].(state := Enqueued)], task := NoTask)
  {
    assert Bridging(o, MarkingEnqueued).todo[1..] == [];
  }

  lemma PassStage(w: World, o: Origin)
    requires AboutToAcknowledge(w, o)
    ensures Run(RetryGathered(w, o), PassSteps(o)) == Requeued(w, o)
  {
    var v, k := RetryGathered(w, o), w.receipts[o].key;
    assert o in v.logs[k].lines;
    BeginSteps(v, o);
    AuditedSteps(v.(task := Bridging(o, AtSecondRead)), o);
    AppendSteps(v.(task := Bridging(o, AtAppend)), o);
    RunPassSteps(v, o, v.(task := Bridging(o, AtSecondRead)), v.(task := Bridging(o, AtAppend)));
  }

  lemma RunPassSteps(v: World, o: Origin, v1: World, v2: World)
    requires v1 == Step(Step(Step(v, BeginPass(true, [o])), PassStep(true)), PassStep(true))
    requires v2 == Step(Step(v1, PassStep(true)), PassStep(true))
    ensures Run(v, PassSteps(o)) == Step(Step(Step(v2, PassStep(true)), PassStep(true)), PassStep(true))
  {
    var first := [BeginPass(true, [o]), PassStep(true), PassStep(true)];
    RunThree(v, BeginPass(true, [o]), PassStep(true), PassStep(true));
    RunTwo(v1, PassStep(true), PassStep(true));
    RunThree(v2, PassStep(true), PassStep(true), PassStep(true));
    RunConcat(v, first, [PassStep(true), PassStep(true)]);
    RunConcat(v, first + [PassStep(true), PassStep(true)], [PassStep(true), PassStep(true), PassStep(true)]);
  }

  /** The acknowledgement, a resume and an operator retry end with a new line of the origin. */
  lemma RoundEnds(w: World, o: Origin)
    requires AboutToAcknowledge(w, o)
    ensures Run(Step(w, OperatorStep), RetryRound(o)) == Requeued(w, o)
  {
    var v := Step(w, OperatorStep);
    AcknowledgeSteps(w, o);
    RetryStage(w, o);
    PassStage(w, o);
    RunOne(v, Resume);
    RunConcat(v, [Resume], RetrySteps(o));
    RunConcat(v, [Resume] + RetrySteps(o), PassSteps(o));
  }

  // ---------------------------------------------------------------- selecting a line

  ghost function SelectSteps(o: Origin): seq<Action> {
    [Pause, StartOperator(o)] + [OperatorStep, OperatorStep, OperatorStep]
  }

  /** The operator selects the first unacknowledged line, the line of the enqueued `o`. */
  ghost predicate Selectable(v: World, o: Origin) {
    && v.task.NoTask? && v.guard.Nobody? && o in v.receipts && v.receipts[o].state == Enqueued
    && var k := v.receipts[o].key;
       k in v.logs && v.logs[k].committed < |v.logs[k].lines| && v.logs[k].lines[v.logs[k].committed] == o
  }

  ghost function Selected(v: World, o: Origin): World
    requires Selectable(v, o)
  {
    v.(receipts := v.receipts[o := v.receipts[o].(state := Quarantined)], dead := v.dead + {o},
       paused := true, guard := ByTask, task := Operator(o, AtCommit(v.logs[v.receipts[o].key].committed + 1)))
  }

  lemma SelectEnds(v: World, o: Origin)
    requires Selectable(v, o)
    ensures Run(v, SelectSteps(o)) == Selected(v, o)
  {
    var u := v.(paused := true, guard := ByTask, task := Operator(o, AtInspect));
    PauseAndStart(v, o);
    OperatorMarksLine(u, o);
    RunSelectSteps(v, o, u);
  }

  lemma PauseAndStart(v: World, o: Origin)
    requires v.task.NoTask? && v.guard.Nobody?
    ensures Step(Step(v, Pause), StartOperator(o)) == v.(paused := true, guard := ByTask, task := Operator(o, AtInspect))
  {
    assert Step(v, Pause) == v.(paused := true);
  }

  lemma RunSelectSteps(v: World, o: Origin, u: World)
    requires u == Step(Step(v, Pause), StartOperator(o))
    ensures Run(v, SelectSteps(o)) == Step(Step(Step(u, OperatorStep), OperatorStep), OperatorStep)
  {
    RunTwo(v, Pause, StartOperator(o));
    RunThree(u, OperatorStep, OperatorStep, OperatorStep);
    RunConcat(v, [Pause, StartOperator(o)], [OperatorStep, OperatorStep, OperatorStep]);
  }

  lemma OperatorMarksLine(u: World, o: Origin)
    requires u.task == Operator(o, AtInspect) && o in u.receipts && u.receipts[o].state == Enqueued
    requires u.receipts[o].key in u.logs
    requires var l := u.logs[u.receipts[o].key]; l.committed < |l.lines| && l.lines[l.committed] == o
    ensures Step(Step(Step(u, OperatorStep), OperatorStep), OperatorStep)
            == u.(receipts := u.receipts[o := u.receipts[o].(state := Quarantined)], dead := u.dead + {o},
                  task := Operator(o, AtCommit(u.logs[u.receipts[o].key].committed + 1)))
  {
    var k := u.receipts[o].key;
    assert UncommittedIn(u.logs[k], o);
    var end := End(u.logs[k].committed + 1);
    assert Step(u, OperatorStep) == u.(task := Operator(o, AtDeadLetter(end)));
    assert Step(Step(u, OperatorStep), OperatorStep)
           == u.(dead := u.dead + {o}, task := Operator(o, AtQuarantine(end)));
  }

  // ---------------------------------------------------------------- the drainer's own acknowledgement

  ghost function FlushSteps(k: Key): seq<Action> { [EnterGuard(k), Locate(k), Check(k), Flush(k)] }

  /** The drainer of `k` holds a line of the enqueued `o`, and a later line of `o` is queued. */
  ghost predicate ReadyToFlush(v: World, k: Key, o: Origin) {
    && v.task.NoTask? && v.guard.Nobody? && !v.paused && o in v.receipts && v.receipts[o].state == Enqueued
    && k in v.logs && k in v.drainers && !v.drainers[k].Idle?
    && v.drainers[k].pos < |v.logs[k].lines| && v.logs[k].lines[v.drainers[k].pos] == o
    && UncommittedIn(v.logs[k], o)
  }

  lemma FlushEnds(v: World, k: Key, o: Origin)
    requires ReadyToFlush(v, k, o) && v.drainers[k].Holding?
    ensures Run(v, FlushSteps(k)) == SetDrainer(v, k, Guarded(v.drainers[k].pos, Flushed))
                                     .(guard := ByDrainer(k), flushed := v.flushed + {o})
  {
    var pos := v.drainers[k].pos;
    var u := SetDrainer(v, k, Guarded(pos, Located)).(guard := ByDrainer(k));
    RunFour(v, EnterGuard(k), Locate(k), Check(k), Flush(k));
    LocateSteps(v, k, o);
    CheckAndFlush(u, k, o);
  }

  lemma LocateSteps(v: World, k: Key, o: Origin)
    requires ReadyToFlush(v, k, o) && v.drainers[k].Holding?
    ensures Step(Step(v, EnterGuard(k)), Locate(k))
            == SetDrainer(v, k, Guarded(v.drainers[k].pos, Located)).(guard := ByDrainer(k))
  {
    var u := SetDrainer(v, k, Guarded(v.drainers[k].pos, Entered)).(guard := ByDrainer(k));
    assert Step(v, EnterGuard(k)) == u;
    assert Step(u, Locate(k)) == SetDrainer(u, k, Guarded(v.drainers[k].pos, Located));
  }

  lemma CheckAndFlush(u: World, k: Key, o: Origin)
    requires k in u.logs && k in u.drainers && u.drainers[k].Guarded? && u.drainers[k].stage == Located
    requires u.drainers[k].pos < |u.logs[k].lines| && u.logs[k].lines[u.drainers[k].pos] == o && Flushable(u, o)
    ensures Step(Step(u, Check(k)), Flush(k))
            == SetDrainer(u, k, Guarded(u.drainers[k].pos, Flushed)).(flushed := u.flushed + {o})
  {
    assert Step(u, Check(k)) == SetDrainer(u, k, Guarded(u.drainers[k].pos, Checked));
  }

  /** A flushed session end commits the offset of its own line. */
  lemma SessionEndRewinds(v: World, k: Key, o: Origin)
    requires ReadyToFlush(v, k, o) && v.drainers[k].Holding? && v.receipts[o].sessionEnd
    ensures var w := Run(v, FlushSteps(k) + [CommitTerminal(k)]);
            k in w.logs && w.logs[k] == v.logs[k].(committed := v.drainers[k].pos)
  {
    FlushEnds(v, k, o);
    RunSnoc(v, FlushSteps(k), CommitTerminal(k));
  }

  /** Any other flushed record commits the offset after its line. */
  lemma PlainRewinds(v: World, k: Key, o: Origin)
    requires ReadyToFlush(v, k, o) && v.drainers[k].Holding?
    ensures var w := Run(v, FlushSteps(k) + [MarkFlushed(k), Commit(k)]);
            k in w.logs && w.logs[k] == v.logs[k].(committed := v.drainers[k].pos + 1)
  {
    FlushEnds(v, k, o);
    var u := Run(v, FlushSteps(k));
    MarkAndCommit(u, k);
    RunTwo(u, MarkFlushed(k), Commit(k));
    RunConcat(v, FlushSteps(k), [MarkFlushed(k), Commit(k)]);
  }

  lemma MarkAndCommit(u: World, k: Key)
    requires k in u.logs && k in u.drainers && u.drainers[k].Guarded? && u.drainers[k].stage == Flushed
    requires u.drainers[k].pos < |u.logs[k].lines|
    ensures var x := Step(Step(u, MarkFlushed(k)), Commit(k));
            k in x.logs && x.logs[k] == u.logs[k].(committed := u.drainers[k].pos + 1)
  {
    var m := Step(u, MarkFlushed(k));
    assert m.logs == u.logs && m.drainers == u.drainers[k := Guarded(u.drainers[k].pos, Marked)];
  }

  /** So does a dead-lettered one. */
  lemma DeadLetterRewinds(v: World, k: Key, o: Origin)
    requires ReadyToFlush(v, k, o) && v.drainers[k].DeadLettered?
    ensures var w := Run(v, [StartAck(k), AckMark, AckCommit]);
            k in w.logs && w.logs[k] == v.logs[k].(committed := v.drainers[k].pos + 1)
  {
    RunThree(v, StartAck(k), AckMark, AckCommit);
    var v1 := v.(task := Ack(k, false), guard := ByTask);
    assert Step(v, StartAck(k)) == v1;
    AckMarks(v1, k);
    AckCommits(Step(v1, AckMark), k);
  }

  lemma AckMarks(v: World, k: Key)
    requires v.task == Ack(k, false) && k in v.drainers && v.drainers[k].DeadLettered?
    requires v.drainers[k].pos < |LogOf(v, k).lines|
    ensures var u := Step(v, AckMark); u.task == Ack(k, true) && u.logs == v.logs && u.drainers == v.drainers
  {
  }

  lemma AckCommits(v: World, k: Key)
    requires v.task == Ack(k, true) && k in v.logs && k in v.drainers && v.drainers[k].DeadLettered?
    ensures var u := Step(v, AckCommit); k in u.logs && u.logs[k] == v.logs[k].(committed := v.drainers[k].pos + 1)
  {
  }

  // ---------------------------------------------------------------- a harmful acknowledgement

  /** A log that is left with two unacknowledged lines of one origin. */
  lemma TwoLines(w: World, k: Key, i: nat, j: nat)
    requires k in w.logs && w.logs[k].committed <= i < j < |w.logs[k].lines| && w.logs[k].lines[i] == w.logs[k].lines[j]
    ensures !AllDistinct(w)
  {
  }

  /** The drainer holds the line that is about to be acknowledged. */
  ghost predicate HoldsIt(w: World, o: Origin)
    requires AboutToAcknowledge(w, o)
  {
    var k := w.receipts[o].key;
    k in w.drainers && (w.drainers[k].Holding? || w.drainers[k].DeadLettered?)
    && w.drainers[k].pos == w.logs[k].committed
  }

  lemma SessionEndDuplicates(w: World, o: Origin)
    requires AboutToAcknowledge(w, o) && HoldsIt(w, o)
    requires w.drainers[w.receipts[o].key].Holding? && w.receipts[o].sessionEnd
    ensures var k := w.receipts[o].key;
            !AllDistinct(Run(Step(w, OperatorStep), RetryRound(o) + (FlushSteps(k) + [CommitTerminal(k)])))
  {
    var k, v := w.receipts[o].key, Requeued(w, o);
    var l := v.logs[k];
    assert l.lines[|l.lines| - 1] == o;
    SessionEndRewinds(v, k, o);
    RoundEnds(w, o);
    RunConcat(Step(w, OperatorStep), RetryRound(o), FlushSteps(k) + [CommitTerminal(k)]);
    TwoLines(Run(v, FlushSteps(k) + [CommitTerminal(k)]), k, v.drainers[k].pos, |l.lines| - 1);
  }

  ghost function TwoRounds(o: Origin): seq<Action> {
    RetryRound(o) + SelectSteps(o) + [OperatorStep] + RetryRound(o)
  }

  /** When the acknowledged line was the last, the retried line can be selected in turn. */
  lemma SecondSelection(w: World, o: Origin)
    requires AboutToAcknowledge(w, o) && w.logs[w.receipts[o].key].committed + 1 == |w.logs[w.receipts[o].key].lines|
    ensures Selectable(Requeued(w, o), o) && AboutToAcknowledge(Selected(Requeued(w, o), o), o)
  {
    var k, v := w.receipts[o].key, Requeued(w, o);
    var u := Selected(v, o);
    var after := u.logs[k := u.logs[k].(committed := u.logs[k].committed + 1)];
    forall j | j in after ensures !UncommittedIn(after[j], o) {
      if j != k {
        assert !UncommittedIn(w.logs[k := w.logs[k].(committed := w.logs[k].committed + 1)][j], o);
      }
    }
  }

  lemma TwoRoundsEnd(w: World, o: Origin)
    requires AboutToAcknowledge(w, o) && w.logs[w.receipts[o].key].committed + 1 == |w.logs[w.receipts[o].key].lines|
    ensures Selectable(Requeued(w, o), o) && AboutToAcknowledge(Selected(Requeued(w, o), o), o)
    ensures Run(Step(w, OperatorStep), TwoRounds(o)) == Requeued(Selected(Requeued(w, o), o), o)
  {
    SecondSelection(w, o);
    var start, v := Step(w, OperatorStep), Requeued(w, o);
    var u := Selected(v, o);
    RoundEnds(w, o);
    SelectEnds(v, o);
    RoundEnds(u, o);
    RunConcat(start, RetryRound(o), SelectSteps(o));
    RunSnoc(start, RetryRound(o) + SelectSteps(o), OperatorStep);
    RunConcat(start, RetryRound(o) + SelectSteps(o) + [OperatorStep], RetryRound(o));
  }

  ghost function OwnSteps(d: Drainer, k: Key): seq<Action> {
    if d.Holding? then FlushSteps(k) + [MarkFlushed(k), Commit(k)] else [StartAck(k), AckMark, AckCommit]
  }

  lemma LastLineDuplicates(w: World, o: Origin)
    requires AboutToAcknowledge(w, o) && HoldsIt(w, o)
    requires w.logs[w.receipts[o].key].committed + 1 == |w.logs[w.receipts[o].key].lines|
    ensures var k := w.receipts[o].key;
            !AllDistinct(Run(Step(w, OperatorStep), TwoRounds(o) + OwnSteps(w.drainers[k], k)))
  {
    var k := w.receipts[o].key;
    TwoRoundsEnd(w, o);
    var x := Requeued(Selected(Requeued(w, o), o), o);
    var l, pos := x.logs[k], w.drainers[k].pos;
    assert l.lines == w.logs[k].lines + [o] + [o] && x.drainers == w.drainers;
    assert l.lines[|l.lines| - 1] == o && l.lines[|l.lines| - 2] == o;
    assert UncommittedIn(l, o);
    if w.drainers[k].Holding? {
      PlainRewinds(x, k, o);
    } else {
      DeadLetterRewinds(x, k, o);
    }
    RunConcat(Step(w, OperatorStep), TwoRounds(o), OwnSteps(w.drainers[k], k));
    TwoLines(Run(x, OwnSteps(w.drainers[k], k)), k, pos + 1, pos + 2);
  }

  // ---------------------------------------------------------------- continuations

  /** The drainer of `k` is busy with the record it read at `p`. */
  ghost predicate StillHeld(w: World, k: Key, p: nat) { k in w.drainers && !w.drainers[k].Idle? && w.drainers[k].pos == p }

  ghost predicate HeldThrough(w: World, rest: seq<Action>, i: nat, k: Key, p: nat)
    requires i <= |rest|
  {
    forall j | 0 <= j <= i :: StillHeld(Run(w, rest[..j]), k, p)
  }

  /** Step `i` of the continuation is harmful, but to the record at `p` that the drainer of
      `k` has held all along. */
  ghost predicate HarmsOnlyHeld(w: World, rest: seq<Action>, i: nat, k: Key, p: nat)
    requires i < |rest|
  {
    var v := Run(w, rest[..i]);
    Harms(v, rest[i]) ==> v.receipts[v.task.origin].key == k && HeldThrough(w, rest, i, k, p)
  }

  /** No harmful acknowledgement happens to any record but the one held at `p`. */
  ghost predicate OnlyHarmsHeld(w: World, rest: seq<Action>, k: Key, p: nat) {
    forall i | 0 <= i < |rest| :: HarmsOnlyHeld(w, rest, i, k, p)
  }

  ghost predicate Bystander(a: Action) { !IsDrainerAction(a) && !a.AbortTask? && !a.Crash? }

  lemma BystanderKeepsDrainers(w: World, a: Action)
    requires Bystander(a)
    ensures Step(w, a).drainers == w.drainers
  {
    if a.PassStep? && w.task.Pass? {
      PassKeepsDrainers(w, a.claimed);
    } else if a.OperatorStep? && w.task.Operator? {
      OperatorKeepsDrainers(w);
    } else if !a.Pause? && !a.Resume? {
      OtherTaskLogs(w, a);
    }
  }

  lemma OperatorKeepsOrigin(w: World)
    requires w.task.Operator? && OperatorStepOf(w).task.Operator?
    ensures OperatorStepOf(w).task.origin == w.task.origin
  {
  }

  lemma PassIsNoOperator(w: World, claimed: bool)
    requires w.task.Pass?
    ensures !PassStepOf(w, claimed).task.Operator?
  {
    if w.task.todo != [] && IsRead(w.task.pc) {
      assert PassStepOf(w, claimed).task == AfterRead(w, claimed);
    }
  }

  /** The operator's origin only changes when an operator starts. */
  lemma OperatorOrigin(w: World, a: Action)
    requires Bystander(a) && Step(w, a).task.Operator?
    ensures (w.task.Operator? && w.task.origin == Step(w, a).task.origin) || a == StartOperator(Step(w, a).task.origin)
  {
    match a
    case PassStep(claimed) => if w.task.Pass? { PassIsNoOperator(w, claimed); }
    case OperatorStep => if w.task.Operator? { OperatorKeepsOrigin(w); }
    case _ =>
  }

  /** Through steps of bystanders whose only operator is about `o`. */
  ghost predicate AboutOnly(a: Action, o: Origin) { Bystander(a) && (a.StartOperator? ==> a.o == o) }

  lemma {:induction false} BystandersPrefix(w: World, rest: seq<Action>, i: nat, o: Origin)
    requires i <= |rest| && (forall j | 0 <= j < i :: AboutOnly(rest[j], o))
    requires o in w.receipts && (w.task.Operator? ==> w.task.origin == o)
    ensures var v := Run(w, rest[..i]);
            && v.drainers == w.drainers && o in v.receipts && v.receipts[o].key == w.receipts[o].key
            && (v.task.Operator? ==> v.task.origin == o)
    decreases i
  {
    if i == 0 {
      assert rest[..0] == [];
    } else {
      BystandersPrefix(w, rest, i - 1, o);
      var v, a := Run(w, rest[..i - 1]), rest[i - 1];
      assert rest[..i] == rest[..i - 1] + [a];
      RunSnoc(w, rest[..i - 1], a);
      BystanderKeepsDrainers(v, a);
      ReceiptLaw(v, a, o);
      if Step(v, a).task.Operator? { OperatorOrigin(v, a); }
    }
  }

  /** Bystanders, then steps that are no acknowledgements, harm at most the held record. */
  lemma CleanContinuation(w: World, quiet: seq<Action>, tail: seq<Action>, o: Origin, k: Key, p: nat)
    requires forall j | 0 <= j < |quiet| :: AboutOnly(quiet[j], o)
    requires forall j | 0 <= j < |tail| :: !tail[j].OperatorStep?
    requires o in w.receipts && w.receipts[o].key == k && (w.task.Operator? ==> w.task.origin == o) && StillHeld(w, k, p)
    ensures OnlyHarmsHeld(w, quiet + tail, k, p)
  {
    var rest := quiet + tail;
    forall i | 0 <= i < |rest| ensures HarmsOnlyHeld(w, rest, i, k, p) {
      if i < |quiet| {
        BystandersPrefix(w, rest, i, o);
        forall j | 0 <= j <= i ensures StillHeld(Run(w, rest[..j]), k, p) { BystandersPrefix(w, rest, j, o); }
      } else {
        assert rest[i] == tail[i - |quiet|];
      }
    }
  }

  lemma RoundsAreQuiet(o: Origin)
    ensures forall j | 0 <= j < |RetryRound(o)| :: AboutOnly(RetryRound(o)[j], o)
    ensures forall j | 0 <= j < |TwoRounds(o)| :: AboutOnly(TwoRounds(o)[j], o)
  {
    assert forall j | 0 <= j < |SelectSteps(o)| :: AboutOnly(SelectSteps(o)[j], o);
  }

  lemma AfterAcknowledgement(w: World, o: Origin)
    requires AboutToAcknowledge(w, o)
    ensures var v := Step(w, OperatorStep); v.task.NoTask? && v.drainers == w.drainers && v.receipts == w.receipts
  {
  }

  /** A harmful acknowledgement can be continued, harming no other record, to two lines. */
  lemma HarmContinues(w: World, o: Origin) returns (rest: seq<Action>)
    requires AboutToAcknowledge(w, o) && HoldsIt(w, o)
    requires var k := w.receipts[o].key;
             (w.drainers[k].Holding? && w.receipts[o].sessionEnd) || w.logs[k].committed + 1 == |w.logs[k].lines|
    ensures var k, v := w.receipts[o].key, Step(w, OperatorStep);
            OnlyHarmsHeld(v, rest, k, w.drainers[k].pos) && !AllDistinct(Run(v, rest))
  {
    var k, v := w.receipts[o].key, Step(w, OperatorStep);
    var pos := w.drainers[k].pos;
    RoundsAreQuiet(o);
    AfterAcknowledgement(w, o);
    if w.drainers[k].Holding? && w.receipts[o].sessionEnd {
      var tail := FlushSteps(k) + [CommitTerminal(k)];
      SessionEndDuplicates(w, o);
      CleanContinuation(v, RetryRound(o), tail, o, k, pos);
      rest := RetryRound(o) + tail;
    } else {
      var tail := OwnSteps(w.drainers[k], k);
      LastLineDuplicates(w, o);
      CleanContinuation(v, TwoRounds(o), tail, o, k, pos);
      rest := TwoRounds(o) + tail;
    }
  }

  // ---------------------------------------------------------------- a harmless acknowledgement

  /** While its drainer is behind, no line of a log can be acknowledged by an operator. */
  lemma BehindIsSafe(w: World, a: Action, k: Key)
    requires LinesInv(w) && Behind(w, k) && Harms(w, a)
    ensures w.receipts[w.task.origin].key != k
  {
    assert InStep(w, w.receipts[w.task.origin].key);
  }

  /** A drainer that is behind with its record stays behind until it lets go of it. */
  lemma HeldStaysBehind(w: World, a: Action, k: Key, p: nat)
    requires LinesInv(w) && LinesInv(Step(w, a)) && Behind(w, k) && StillHeld(w, k, p) && StillHeld(Step(w, a), k, p)
    ensures Behind(Step(w, a), k)
  {
    var c := StepLogs(w, a);
    OffsetNeverBack(w, Step(w, a), c, k);
    assert Placed(Step(w, a), k);
  }

  lemma OffsetNeverBack(w: World, v: World, c: LogChange, k: Key)
    requires v.logs == Logs(w, c) && Orderly(w, c) && !DrainerOf(w, k).Idle?
    ensures LogOf(v, k).committed >= LogOf(w, k).committed
  {
  }

  lemma {:induction false} StaysClean(w: World, rest: seq<Action>, i: nat, k: Key, p: nat)
    requires LinesInv(w) && Behind(w, k) && OnlyHarmsHeld(w, rest, k, p) && i <= |rest|
    ensures LinesInv(Run(w, rest[..i]))
    ensures HeldThrough(w, rest, i, k, p) ==> Behind(Run(w, rest[..i]), k)
    decreases i
  {
    if i == 0 {
      assert rest[..0] == [];
    } else {
      StaysClean(w, rest, i - 1, k, p);
      var v, a := Run(w, rest[..i - 1]), rest[i - 1];
      assert rest[..i] == rest[..i - 1] + [a];
      RunSnoc(w, rest[..i - 1], a);
      assert HarmsOnlyHeld(w, rest, i - 1, k, p);
      assert !Harms(v, a) by {
        if Harms(v, a) { BehindIsSafe(v, a, k); }
      }
      StepKeepsLines(v, a);
      if HeldThrough(w, rest, i, k, p) {
        assert StillHeld(Run(w, rest[..i - 1]), k, p) && StillHeld(Run(w, rest[..i]), k, p);
        assert HeldThrough(w, rest, i - 1, k, p);
        HeldStaysBehind(v, a, k, p);
      }
    }
  }

  lemma HarmlessStaysClean(w: World, a: Action, rest: seq<Action>)
    requires LinesInv(w) && Overtakes(w, a) && !Harms(w, a)
    requires var k := w.receipts[w.task.origin].key;
             OnlyHarmsHeld(Step(w, a), rest, k, DrainerOf(w, k).pos)
    ensures AllDistinct(Run(Step(w, a), rest))
  {
    var k, v := w.receipts[w.task.origin].key, Step(w, a);
    StepKeepsLines(w, a);
    OvertakenIsBehind(w, a);
    StaysClean(v, rest, |rest|, k, DrainerOf(w, k).pos);
    assert rest[..|rest|] == rest;
  }

  lemma OvertakenIsBehind(w: World, a: Action)
    requires LinesInv(w) && Overtakes(w, a) && LinesInv(Step(w, a))
    ensures Behind(Step(w, a), w.receipts[w.task.origin].key)
  {
    var k, v := w.receipts[w.task.origin].key, Step(w, a);
    assert InStep(w, k) && v == OperatorStepOf(w) && v.drainers == w.drainers;
    assert LogOf(v, k).committed == LogOf(w, k).committed + 1;
    assert Placed(v, k);
  }

  // ---------------------------------------------------------------- the exact condition

  /** What holds in addition while a single receipt is pending at a time. */
  ghost predicate OneAtATime(w: World) {
    && LinesInv(w) && OnePending(w)
    && (w.task.Operator? && w.task.opc.AtCommit? ==> NonePending(w))
  }

  lemma ChangeKeepsNonePending(w: World, v: World, c: Change)
    requires NonePending(w) && Effect(w, v, c) && !c.Admits? && !c.Requeue?
    ensures NonePending(v)
  {
  }

  lemma OperatorKeepsNonePending(w: World, a: Action)
    requires NonePending(w) && w.task.Operator?
    ensures NonePending(Step(w, a))
  {
    var c := StepEffect(w, a);
    ChangeKeepsNonePending(w, Step(w, a), c);
  }

  /** The quarantine mark leaves nothing pending. */
  lemma MarkedNonePending(w: World)
    requires OneAtATime(w) && w.task.Operator? && w.task.opc.AtQuarantine?
    ensures NonePending(OperatorStepOf(w))
  {
  }

  /** An operator comes to its acknowledgement only through its quarantine mark. */
  lemma ReachesAcknowledgement(w: World, a: Action)
    requires Step(w, a).task.Operator? && Step(w, a).task.opc.AtCommit?
    ensures w.task == Step(w, a).task || (w.task.Operator? && w.task.opc.AtQuarantine? && a.OperatorStep?)
  {
    if IsDrainerAction(a) {
      DrainerKeepsTask(w, a);
    } else if Bystander(a) {
      OperatorOrigin(w, a);
    }
  }

  lemma StepKeepsOneAtATime(w: World, a: Action)
    requires OneAtATime(w) && !Harms(w, a)
    ensures OneAtATime(Step(w, a))
  {
    StepKeepsLines(w, a);
    StepKeepsOnePending(w, a);
    var v := Step(w, a);
    if v.task.Operator? && v.task.opc.AtCommit? {
      ReachesAcknowledgement(w, a);
      if w.task == v.task {
        OperatorKeepsNonePending(w, a);
      } else {
        MarkedNonePending(w);
      }
    }
  }

  /** Every run from an ordinary start without a harmful acknowledgement keeps all of it. */
  lemma {:induction false} RunKeepsOneAtATime(w: World, actions: seq<Action>)
    requires OneAtATime(w) && NeverHarms(w, actions)
    ensures OneAtATime(Run(w, actions))
    decreases |actions|
  {
    if actions == [] {
    } else {
      StepKeepsOneAtATime(w, actions[0]);
      RunKeepsOneAtATime(Step(w, actions[0]), actions[1..]);
    }
  }

  lemma AcknowledgesOnlyLine(w: World, a: Action)
    requires OneAtATime(w) && Overtakes(w, a)
    ensures AboutToAcknowledge(w, w.task.origin) && HoldsIt(w, w.task.origin)
  {
    var o := w.task.origin;
    var k := w.receipts[o].key;
    assert InStep(w, k) && DrainerOk(w, k) && LogWellFormed(w, k) && Distinct(w.logs[k]);
    var after := w.logs[k := w.logs[k].(committed := w.logs[k].committed + 1)];
    forall j | j in after ensures !UncommittedIn(after[j], o) {
      assert j in w.logs && LogWellFormed(w, j);
    }
  }

  /** The line behind is settled unless there is none. */
  lemma BackedUpUnlessLast(w: World, k: Key)
    requires LogsWellFormed(w) && NonePending(w) && k in w.logs && w.logs[k].committed < |w.logs[k].lines|
    ensures BackedUp(w, w.logs[k]) <==> w.logs[k].committed + 1 != |w.logs[k].lines|
  {
    assert LogWellFormed(w, k);
  }

  /** An overtaking acknowledgement is harmful exactly when the held record is a session end
      that its drainer may still flush, or the last line of its log. And exactly then can the
      run go on to a state in which one origin has two unacknowledged lines, without any
      other record being overtaken harmfully. */
  lemma OvertakingDuplicatesIff(w: World, a: Action)
    requires OneAtATime(w) && Overtakes(w, a)
    ensures var o := w.task.origin;
            var k := w.receipts[o].key;
            && (Harms(w, a) <==>
                  (DrainerOf(w, k).Holding? && w.receipts[o].sessionEnd) || LogOf(w, k).committed + 1 == |LogOf(w, k).lines|)
            && (Harms(w, a) <==>
                  exists rest :: OnlyHarmsHeld(Step(w, a), rest, k, DrainerOf(w, k).pos)
                                 && !AllDistinct(Run(Step(w, a), rest)))
  {
    var o := w.task.origin;
    var k := w.receipts[o].key;
    AcknowledgesOnlyLine(w, a);
    BackedUpUnlessLast(w, k);
    if Harms(w, a) {
      var rest := HarmContinues(w, o);
    } else {
      forall rest | OnlyHarmsHeld(Step(w, a), rest, k, DrainerOf(w, k).pos) ensures AllDistinct(Run(Step(w, a), rest)) {
        HarmlessStaysClean(w, a, rest);
      }
    }
  }

  // ---------------------------------------------------------------- a concrete run

  ghost const EMPTY := World(map[], map[], {}, {}, {}, false, Nobody, map[], NoTask)

  ghost function AdmitSteps(o: Origin, sessionEnd: bool): seq<Action> {
    [Admit(o, "s", sessionEnd), PassStep(true)] + [PassStep(true), PassStep(true), PassStep(true)]
  }

  ghost function OneLine(o: Origin, sessionEnd: bool): World {
    World(map[o := Receipt(Enqueued, "s", sessionEnd)], map["s" := Log([o], 0)], {}, {}, {}, false, Nobody, map[], NoTask)
  }

  ghost function Admitting(o: Origin, sessionEnd: bool, pc: PassPc, logs: map<Key, Log>): World {
    EMPTY.(receipts := map[o := Receipt(PendingEnqueue, "s", sessionEnd)], logs := logs,
           task := Pass([Item(o, PendingEnqueue)], {}, {}, false, map[], pc))
  }

  lemma AdmitToAppend(o: Origin, sessionEnd: bool)
    ensures Step(Step(EMPTY, Admit(o, "s", sessionEnd)), PassStep(true)) == Admitting(o, sessionEnd, AtAppend, map[])
  {
    assert Step(EMPTY, Admit(o, "s", sessionEnd)) == Admitting(o, sessionEnd, AtEnqueueClaim, map[]);
  }

  lemma AdmitAppends(o: Origin, sessionEnd: bool)
    ensures Step(Admitting(o, sessionEnd, AtAppend, map[]), PassStep(true))
            == Admitting(o, sessionEnd, MarkingEnqueued, map["s" := Log([o], 0)])
  {
    assert [] + [o] == [o];
  }

  lemma AdmitMarks(o: Origin, sessionEnd: bool)
    ensures var v := Step(Admitting(o, sessionEnd, MarkingEnqueued, map["s" := Log([o], 0)]), PassStep(true));
            v.task.Pass? && v.task.todo == [] && v == OneLine(o, sessionEnd).(task := v.task)
  {
    var w := Admitting(o, sessionEnd, MarkingEnqueued, map["s" := Log([o], 0)]);
    assert w.task.todo[1..] == [];
    assert map[o := w.receipts[o]][o := w.receipts[o].(state := Enqueued)] == OneLine(o, sessionEnd).receipts;
  }

  lemma AdmitStage(o: Origin, sessionEnd: bool)
    ensures Run(EMPTY, AdmitSteps(o, sessionEnd)) == OneLine(o, sessionEnd)
  {
    AdmitToAppend(o, sessionEnd);
    AdmitAppends(o, sessionEnd);
    AdmitMarks(o, sessionEnd);
    var v := Admitting(o, sessionEnd, AtAppend, map[]);
    RunTwo(EMPTY, Admit(o, "s", sessionEnd), PassStep(true));
    RunThree(v, PassStep(true), PassStep(true), PassStep(true));
    RunConcat(EMPTY, [Admit(o, "s", sessionEnd), PassStep(true)], [PassStep(true), PassStep(true), PassStep(true)]);
  }

  ghost function ReadAndSelect(o: Origin): seq<Action> { [Read("s")] + SelectSteps(o) }

  lemma SelectStage(o: Origin, sessionEnd: bool)
    ensures var v := Run(OneLine(o, sessionEnd), ReadAndSelect(o));
            && AboutToAcknowledge(v, o) && HoldsIt(v, o) && v.receipts[o].key == "s"
            && v.logs["s"].committed + 1 == |v.logs["s"].lines|
  {
    var w := OneLine(o, sessionEnd);
    var v := w.(drainers := map["s" := Holding(0)]);
    RunOne(w, Read("s"));
    assert Step(w, Read("s")) == v;
    SelectEnds(v, o);
    RunConcat(w, [Read("s")], SelectSteps(o));
  }

  /** From an empty ledger, for a session end and for any other event alike: one record is
      admitted, read, and selected by the operator while its drainer holds it. */
  lemma HarmfulReachable(o: Origin, sessionEnd: bool)
    ensures var v := Run(EMPTY, AdmitSteps(o, sessionEnd) + ReadAndSelect(o));
            AboutToAcknowledge(v, o) && HoldsIt(v, o) && Harms(v, OperatorStep)
  {
    AdmitStage(o, sessionEnd);
    SelectStage(o, sessionEnd);
    RunConcat(EMPTY, AdmitSteps(o, sessionEnd), ReadAndSelect(o));
  }

  /** From an empty ledger one origin can end with two unacknowledged lines. */
  lemma TwoUnacknowledgedLinesReachable(o: Origin, sessionEnd: bool)
    ensures Init(EMPTY) && AllDistinct(EMPTY) && OnePending(EMPTY)
    ensures exists rest :: !AllDistinct(Run(EMPTY, AdmitSteps(o, sessionEnd) + ReadAndSelect(o) + [OperatorStep] + rest))
  {
    var steps := AdmitSteps(o, sessionEnd) + ReadAndSelect(o);
    AdmitStage(o, sessionEnd);
    SelectStage(o, sessionEnd);
    RunConcat(EMPTY, AdmitSteps(o, sessionEnd), ReadAndSelect(o));
    var rest := HarmContinues(Run(EMPTY, steps), o);
    RunSnoc(EMPTY, steps, OperatorStep);
    RunConcat(EMPTY, steps + [OperatorStep], rest);
  }
}
