/** What the recovery protocol guarantees over every run, stated on the run itself. */
module RecoveryTheorems {
  import opened ReceiptStates
  import opened RecoveryModel
  import opened RecoverySafety
  import opened RecoveryTasks

  /** This step is the graph flush of a queue line of `o`. */
  ghost predicate Delivers(w: World, a: Action, o: Origin) {
    && a.Flush? && DrainerOf(w, a.k).Guarded? && DrainerOf(w, a.k).stage == Checked
    && DrainerOf(w, a.k).pos < |LogOf(w, a.k).lines| && LogOf(w, a.k).lines[DrainerOf(w, a.k).pos] == o
  }

  /** This step is the operator retry that takes `o` out of quarantine. */
  ghost predicate Requeues(w: World, a: Action, o: Origin) {
    && a.RetryStep? && a.available && !w.paused && NonePending(w) && w.task == Retry(o, AtRequeue)
    && o in w.receipts && w.receipts[o].state == Quarantined
  }

  /** Step `i` of the run delivered `o`, and no later step of it requeued `o`. */
  ghost predicate LastDelivered(w: World, actions: seq<Action>, i: nat, o: Origin) {
    && i < |actions| && Delivers(Run(w, actions[..i]), actions[i], o)
    && forall j | i < j < |actions| :: !Requeues(Run(w, actions[..j]), actions[j], o)
  }

  lemma {:induction false} RunSnoc(w: World, actions: seq<Action>, a: Action)
    ensures Run(w, actions + [a]) == Step(Run(w, actions), a)
    decreases |actions|
  {
    if actions == [] {
      assert [a][1..] == [];
    } else {
      RunSnoc(Step(w, actions[0]), actions[1..], a);
      assert (actions + [a])[1..] == actions[1..] + [a];
    }
  }

  lemma {:induction false} RunLast(w: World, actions: seq<Action>)
    requires actions != []
    ensures Run(w, actions) == Step(Run(w, actions[..|actions| - 1]), actions[|actions| - 1])
  {
    RunSnoc(w, actions[..|actions| - 1], actions[|actions| - 1]);
    assert actions[..|actions| - 1] + [actions[|actions| - 1]] == actions;
  }

  // ---------------------------------------------------------------- what one step does to the ledger

  datatype Change = Same | Marks(o: Origin, next: ReceiptState) | Admits(o: Origin, r: Receipt) | Requeue(o: Origin)

  ghost function Changed(w: World, c: Change): map<Origin, Receipt> {
    match c
    case Same => w.receipts
    case Marks(o, next) => Mark(w, o, next).receipts
    case Admits(o, r) => w.receipts[o := r]
    case Requeue(o) => if o in w.receipts then w.receipts[o := w.receipts[o].(state := RetryPending)] else w.receipts
  }

  /** `v` follows `w` by a step whose effect on ledger and history is `c`. */
  ghost predicate Effect(w: World, v: World, c: Change) {
    && v.receipts == Changed(w, c)
    && (c.Admits? ==> c.o !in w.receipts && NonePending(w) && w.task.NoTask?)
    && (c.Requeue? ==> c.o in w.receipts && w.receipts[c.o].state == Quarantined && NonePending(w)
                       && !w.paused && w.task == Retry(c.o, AtRequeue) && v.flushed == w.flushed - {c.o})
    && (!c.Requeue? ==> w.flushed <= v.flushed)
  }

  lemma MarkFlushedEffect(w: World, k: Key) returns (c: Change)
    ensures Effect(w, DrainerStep(w, MarkFlushed(k)), c) && !c.Requeue? && DrainerStep(w, MarkFlushed(k)).flushed == w.flushed
  {
    c := if DrainerStep(w, MarkFlushed(k)) != w then Marks(LogOf(w, k).lines[DrainerOf(w, k).pos], Written) else Same;
  }

  lemma AckMarkEffect(w: World) returns (c: Change)
    ensures Effect(w, DrainerStep(w, AckMark), c) && !c.Requeue? && DrainerStep(w, AckMark).flushed == w.flushed
  {
    c := Same;
    if DrainerStep(w, AckMark) != w {
      c := Marks(LogOf(w, w.task.key).lines[DrainerOf(w, w.task.key).pos], Quarantined);
    }
  }

  lemma OtherDrainerEffect(w: World, a: Action)
    requires IsDrainerAction(a) && !a.MarkFlushed? && !a.AckMark?
    ensures DrainerStep(w, a).receipts == w.receipts && w.flushed <= DrainerStep(w, a).flushed
    ensures forall o | o in DrainerStep(w, a).flushed :: o in w.flushed || Delivers(w, a, o)
  {
  }

  lemma DrainerEffect(w: World, a: Action) returns (c: Change)
    requires IsDrainerAction(a)
    ensures Effect(w, DrainerStep(w, a), c) && !c.Requeue?
    ensures forall o | o in DrainerStep(w, a).flushed :: o in w.flushed || Delivers(w, a, o)
  {
    if a.MarkFlushed? {
      c := MarkFlushedEffect(w, a.k);
    } else if a.AckMark? {
      c := AckMarkEffect(w);
    } else {
      OtherDrainerEffect(w, a);
      c := Same;
    }
  }

  lemma PassEffect(w: World, claimed: bool) returns (c: Change)
    requires w.task.Pass?
    ensures Effect(w, PassStepOf(w, claimed), c) && !c.Requeue? && PassStepOf(w, claimed).flushed == w.flushed
  {
    var t := w.task;
    c := if t.todo == [] || IsRead(t.pc) || t.pc == AtAppend then Same else Marks(t.todo[0].origin, MarkTarget(t.pc));
  }

  lemma RetryEffect(w: World, available: bool) returns (c: Change)
    requires w.task.Retry?
    ensures Effect(w, RetryStepOf(w, available), c) && RetryStepOf(w, available).flushed <= w.flushed
    ensures c.Requeue? <==> Requeues(w, RetryStep(available), w.task.origin)
  {
    c := if Requeues(w, RetryStep(available), w.task.origin) then Requeue(w.task.origin) else Same;
  }

  lemma OperatorEffect(w: World) returns (c: Change)
    requires w.task.Operator?
    ensures Effect(w, OperatorStepOf(w), c) && !c.Requeue? && OperatorStepOf(w).flushed == w.flushed
  {
    var o := w.task.origin;
    c := if w.task.opc.AtQuarantine? && o in w.receipts && Pending(w.receipts[o].state) then Marks(o, Quarantined) else Same;
  }

  lemma TaskEffect(w: World, a: Action) returns (c: Change)
    requires !IsDrainerAction(a)
    ensures Effect(w, TaskStep(w, a), c) && TaskStep(w, a).flushed <= w.flushed
    ensures c.Requeue? <==> exists o :: Requeues(w, a, o)
  {
    c := Same;
    if a.PassStep? && w.task.Pass? {
      c := PassEffect(w, a.claimed);
    } else if a.RetryStep? && w.task.Retry? {
      c := RetryEffect(w, a.available);
    } else if a.OperatorStep? && w.task.Operator? {
      c := OperatorEffect(w);
    } else if a.Admit? && w.task.NoTask? && a.o !in w.receipts && NonePending(w) && !w.paused {
      c := Admits(a.o, Receipt(PendingEnqueue, a.k, a.sessionEnd));
    }
  }

  lemma StepEffect(w: World, a: Action) returns (c: Change)
    ensures Effect(w, Step(w, a), c)
    ensures c.Requeue? <==> exists o :: Requeues(w, a, o)
    ensures forall o | o in Step(w, a).flushed :: o in w.flushed || Delivers(w, a, o)
  {
    if a.Pause? || a.Resume? || a.Crash? {
      c := Same;
    } else if IsDrainerAction(a) {
      c := DrainerEffect(w, a);
    } else {
      c := TaskEffect(w, a);
    }
  }

  lemma FlushedStep(w: World, a: Action, o: Origin)
    requires o in Step(w, a).flushed
    ensures Delivers(w, a, o) || (o in w.flushed && !Requeues(w, a, o))
  {
    var c := StepEffect(w, a);
  }

  lemma StillDelivered(w: World, actions: seq<Action>, i: nat, o: Origin)
    requires actions != [] && LastDelivered(w, actions[..|actions| - 1], i, o)
    requires !Requeues(Run(w, actions[..|actions| - 1]), actions[|actions| - 1], o)
    ensures LastDelivered(w, actions, i, o)
  {
    var most := actions[..|actions| - 1];
    assert most[..i] == actions[..i];
    forall j | i < j < |actions| ensures !Requeues(Run(w, actions[..j]), actions[j], o) {
      if j < |most| { assert most[..j] == actions[..j] && most[j] == actions[j]; }
    }
  }

  /** The history variable says what it is named for. */
  lemma {:induction false} FlushedWasDelivered(w: World, actions: seq<Action>, o: Origin) returns (i: nat)
    requires o in Run(w, actions).flushed && o !in w.flushed
    ensures LastDelivered(w, actions, i, o)
    decreases |actions|
  {
    assert actions != [];
    var n := |actions| - 1;
    RunLast(w, actions);
    FlushedStep(Run(w, actions[..n]), actions[n], o);
    if Delivers(Run(w, actions[..n]), actions[n], o) {
      i := n;
    } else {
      i := FlushedWasDelivered(w, actions[..n], o);
      StillDelivered(w, actions, i, o);
    }
  }

  /** A receipt is written only after its event was flushed, and after an
      operator retry only by a flush that followed the retry: neither an
      acknowledged offset nor a quarantined line ever stands for a delivery. */
  lemma WrittenOnlyAfterDelivery(w: World, actions: seq<Action>, o: Origin)
    requires Init(w)
    requires o in Run(w, actions).receipts && Run(w, actions).receipts[o].state == Written
    ensures o in w.flushed || exists i :: LastDelivered(w, actions, i, o)
  {
    InitInv(w);
    RunKeepsInv(w, actions);
    assert Accounted(Run(w, actions), o);
    if o !in w.flushed {
      var i := FlushedWasDelivered(w, actions, o);
    }
  }

  // ---------------------------------------------------------------- receipt laws

  /** What one step may do to a receipt: its key and event never change,
      `Written` is final and `Quarantined` is left only by an operator retry. */
  ghost predicate ReceiptEvolves(w: World, v: World, o: Origin, requeued: bool)
    requires o in w.receipts
  {
    && o in v.receipts
    && var r, s := w.receipts[o], v.receipts[o];
       && s.key == r.key && s.sessionEnd == r.sessionEnd
       && (r.state == Written ==> s.state == Written)
       && (r.state == Quarantined ==> s.state == Quarantined || requeued)
  }

  lemma ChangeLaw(w: World, v: World, c: Change, o: Origin)
    requires o in w.receipts && Effect(w, v, c)
    ensures ReceiptEvolves(w, v, o, c == Requeue(o))
  {
  }

  lemma ReceiptLaw(w: World, a: Action, o: Origin)
    requires o in w.receipts
    ensures ReceiptEvolves(w, Step(w, a), o, Requeues(w, a, o))
  {
    var c := StepEffect(w, a);
    ChangeLaw(w, Step(w, a), c, o);
  }

  /** Once written, a receipt stays written in every continuation. */
  lemma {:induction false} WrittenIsFinal(w: World, actions: seq<Action>, o: Origin)
    requires o in w.receipts && w.receipts[o].state == Written
    ensures o in Run(w, actions).receipts && Run(w, actions).receipts[o].state == Written
    decreases |actions|
  {
    if actions == [] {
    } else {
      ReceiptLaw(w, actions[0], o);
      WrittenIsFinal(Step(w, actions[0]), actions[1..], o);
    }
  }

  ghost predicate OnePending(w: World) {
    forall o, p | o in w.receipts && p in w.receipts && Pending(w.receipts[o].state) && Pending(w.receipts[p].state) :: o == p
  }

  lemma ChangeKeepsOnePending(w: World, v: World, c: Change)
    requires OnePending(w) && Effect(w, v, c)
    ensures OnePending(v)
  {
  }

  lemma StepKeepsOnePending(w: World, a: Action)
    requires OnePending(w)
    ensures OnePending(Step(w, a))
  {
    var c := StepEffect(w, a);
    ChangeKeepsOnePending(w, Step(w, a), c);
  }

  /** At most one receipt is pending in every reachable state. */
  lemma {:induction false} AtMostOnePending(w: World, actions: seq<Action>)
    requires OnePending(w)
    ensures OnePending(Run(w, actions))
    decreases |actions|
  {
    if actions == [] {
    } else {
      StepKeepsOnePending(w, actions[0]);
      AtMostOnePending(Step(w, actions[0]), actions[1..]);
    }
  }

  // ---------------------------------------------------------------- a whole reconciliation pass

  /** The receipts a pass examines: those it has finished and those still listed. */
  ghost function Examined(t: Task): set<Origin>
    requires t.Pass?
  {
    t.done.Keys + set i | 0 <= i < |t.todo| :: t.todo[i].origin
  }

  /** This step finds the claim of the head item `o` refused. */
  ghost predicate Refuses(w: World, a: Action, o: Origin) {
    && a.PassStep? && !a.claimed && w.task.Pass? && w.task.pc in {AtClaim, AtEnqueueClaim}
    && w.task.todo != [] && w.task.todo[0].origin == o
  }

  /** A retry captured for bridging is never skipped; a claim is unresolved only when its
      own was refused. */
  ghost predicate HonestOutcomes(t: Task, refused: set<Origin>)
    requires t.Pass?
  {
    forall o | o in t.done ::
      && (t.done[o] == Unbridged ==> !(t.bridge && o in t.captured))
      && (t.done[o] == Unresolved ==> o in refused)
  }

  ghost predicate SamePass(t: Task, u: Task, refused: set<Origin>) {
    && t.Pass? && u.Pass? && u.captured == t.captured && u.bridge == t.bridge
    && Examined(u) == Examined(t)
    && (HonestOutcomes(t, refused) ==> HonestOutcomes(u, refused))
  }

  lemma FinishIsSamePass(w: World, outcome: Outcome, refused: set<Origin>)
    requires w.task.Pass? && w.task.todo != []
    requires outcome == Unbridged ==> !(w.task.bridge && w.task.todo[0].origin in w.task.captured)
    requires outcome == Unresolved ==> w.task.todo[0].origin in refused
    ensures SamePass(w.task, Finish(w.task, outcome), refused)
  {
    var t, u := w.task, Finish(w.task, outcome);
    forall i | 1 <= i < |t.todo| ensures t.todo[i].origin in Examined(u) { assert u.todo[i - 1] == t.todo[i]; }
    forall i | 0 <= i < |u.todo| ensures u.todo[i].origin in Examined(t) { assert u.todo[i] == t.todo[i + 1]; }
  }

  /** A reading step moves within the loop body, finishes the head item, or ends the pass. */
  lemma ReadShape(w: World, claimed: bool) returns (outcome: Outcome)
    requires w.task.Pass? && w.task.todo != [] && IsRead(w.task.pc) && AfterRead(w, claimed).Pass?
    ensures var u := AfterRead(w, claimed);
            u == w.task.(pc := u.pc) || u == Finish(w.task, outcome)
    ensures outcome == Unbridged ==> !(w.task.bridge && w.task.todo[0].origin in w.task.captured)
    ensures outcome == Unresolved ==> !claimed && w.task.pc in {AtClaim, AtEnqueueClaim}
  {
    outcome := match w.task.pc
      case AtClaim => if claimed then Settled else Unresolved
      case AtEnqueueClaim => if claimed then Settled else Unresolved
      case AtDeadCheck => if w.task.bridge && w.task.todo[0].origin in w.task.captured then Settled else Unbridged
      case _ => Settled;
  }

  /** A step of the loop body either moves within it or finishes the head item. */
  lemma PassStepShape(w: World, claimed: bool) returns (outcome: Outcome)
    requires w.task.Pass? && w.task.todo != [] && PassStepOf(w, claimed).task.Pass?
    ensures var u := PassStepOf(w, claimed).task;
            u == w.task.(pc := u.pc) || u == Finish(w.task, outcome)
    ensures outcome == Unbridged ==> !(w.task.bridge && w.task.todo[0].origin in w.task.captured)
    ensures outcome == Unresolved ==> !claimed && w.task.pc in {AtClaim, AtEnqueueClaim}
  {
    if IsRead(w.task.pc) {
      assert PassStepOf(w, claimed).task == AfterRead(w, claimed);
      outcome := ReadShape(w, claimed);
    } else {
      outcome := Settled;
    }
  }

  lemma StepIsSamePass(w: World, a: Action, refused: set<Origin>)
    requires w.task.Pass? && Step(w, a).task.Pass?
    requires forall o | Refuses(w, a, o) :: o in refused
    ensures SamePass(w.task, Step(w, a).task, refused)
  {
    if a.PassStep? {
      assert Step(w, a) == PassStepOf(w, a.claimed);
      var outcome := PassStepShape(w, a.claimed);
      assert outcome == Unresolved ==> Refuses(w, a, w.task.todo[0].origin);
      FinishIsSamePass(w, outcome, refused);
    } else {
      PassUndisturbed(w, a);
    }
  }

  lemma PassUndisturbed(w: World, a: Action)
    requires w.task.Pass? && Step(w, a).task.Pass? && !a.PassStep?
    ensures Step(w, a).task == w.task
  {
    if IsDrainerAction(a) && !IsRecordAction(a) {
      assert SettleStep(w, a).task == w.task || !SettleStep(w, a).task.Pass?;
    }
  }

  /** The pass stays the running activity through all of `rest`. */
  ghost predicate PassThroughout(w: World, rest: seq<Action>) {
    forall n | 0 <= n <= |rest| :: Run(w, rest[..n]).task.Pass?
  }

  /** Step `n` of the run refuses the claim of `o`. */
  ghost predicate RefusedAt(w: World, rest: seq<Action>, n: nat, o: Origin) {
    n < |rest| && Refuses(Run(w, rest[..n]), rest[n], o)
  }

  lemma RunFromSecond(w: World, rest: seq<Action>, n: nat)
    requires n < |rest|
    ensures Run(Step(w, rest[0]), rest[1..][..n]) == Run(w, rest[..n + 1])
  {
    assert rest[..n + 1][1..] == rest[1..][..n];
  }

  lemma {:induction false} PassGoesOn(w: World, rest: seq<Action>, refused: set<Origin>)
    requires PassThroughout(w, rest)
    requires forall n: nat, o: Origin | RefusedAt(w, rest, n, o) :: o in refused
    ensures Run(w, rest).task.Pass? && SamePass(w.task, Run(w, rest).task, refused)
    decreases |rest|
  {
    assert rest[..|rest|] == rest;
    if rest == [] {
    } else {
      assert rest[..0] == [] && Run(w, rest[..0]).task.Pass?;
      RunFromSecond(w, rest, 0);
      forall o | Refuses(w, rest[0], o) ensures o in refused { assert RefusedAt(w, rest, 0, o); }
      var v := Step(w, rest[0]);
      assert v.task.Pass? by { assert rest[1..][..0] == [] && Run(w, rest[..1]).task.Pass?; }
      StepIsSamePass(w, rest[0], refused);
      forall n | 0 <= n <= |rest| - 1 ensures Run(v, rest[1..][..n]).task.Pass? { RunFromSecond(w, rest, n); }
      forall n: nat, o: Origin | RefusedAt(v, rest[1..], n, o) ensures o in refused {
        RunFromSecond(w, rest, n);
        assert RefusedAt(w, rest, n + 1, o);
      }
      PassGoesOn(v, rest[1..], refused);
    }
  }

  lemma BeginPassLists(w: World, bridge: bool, order: seq<Origin>, o: Origin)
    requires w.task.Gathered? && Step(w, BeginPass(bridge, order)).task.Pass?
    requires o in w.receipts && Pending(w.receipts[o].state)
    ensures var t := Step(w, BeginPass(bridge, order)).task;
            o in Examined(t) && t.captured == w.task.captured && t.bridge == bridge && t.done == map[]
  {
    var t := Step(w, BeginPass(bridge, order)).task;
    var i :| 0 <= i < |order| && order[i] == o;
    assert t.todo[i].origin == o;
  }

  /** The origins whose claim some step of the run refuses. */
  ghost function RefusedIn(w: World, rest: seq<Action>): (refused: set<Origin>)
    ensures forall o :: o in refused <==> exists n :: RefusedAt(w, rest, n, o)
    decreases |rest|
  {
    var heads := set n | 0 <= n < |rest| && Run(w, rest[..n]).task.Pass? && Run(w, rest[..n]).task.todo != []
                   :: Run(w, rest[..n]).task.todo[0].origin;
    set o | o in heads && exists n :: RefusedAt(w, rest, n, o)
  }

  /** A pass that reaches the end of its listing has examined every receipt that
      was pending when it began, and each is then terminal, or enqueued with an
      unacknowledged line, or a retry the pass was not allowed to bridge, or had
      its own claim refused. Drainers may run at any point in between. */
  lemma PassSettlesTheOutbox(w: World, bridge: bool, order: seq<Origin>, begun: World, rest: seq<Action>, o: Origin)
    requires Inv(w) && w.task.Gathered? && begun == Step(w, BeginPass(bridge, order))
    requires begun.task.Pass? && PassThroughout(begun, rest)
    requires Run(begun, rest).task.Pass? && Run(begun, rest).task.todo == []
    requires o in w.receipts && Pending(w.receipts[o].state)
    ensures var end := Run(begun, rest);
            && o in end.task.done && OutcomeHolds(end, o, end.task.done[o])
            && (end.task.done[o] == Unbridged ==> !(bridge && o in w.task.captured))
            && (end.task.done[o] == Unresolved ==> exists n :: RefusedAt(begun, rest, n, o))
  {
    BeginPassLists(w, bridge, order, o);
    StepKeepsInv(w, BeginPass(bridge, order));
    RunKeepsInv(begun, rest);
    PassGoesOn(begun, rest, RefusedIn(begun, rest));
    assert o in Examined(Run(begun, rest).task);
  }
}
