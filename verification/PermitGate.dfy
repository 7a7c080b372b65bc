/** The permit gate: single-use, bound, expiring permits issued and consumed under
    the lock that live appends share. */
module PermitGate {

  type Token = string

  datatype Binding = Binding(actor: string, workspace: string, sourceHandle: string, descriptor: string,
                             ordinal: nat, line: string, payload: string)

  datatype Permit = Permit(binding: Binding, expires: int)

  datatype Classification = New | Duplicate | Conflict | Foreign

  datatype PermitResult =
    Accepted | DuplicateReceipt | ConflictingReceipt | Existing | Invalid | Mismatch | Unavailable

  function Unexpired(permits: map<Token, Permit>, now: int): map<Token, Permit> {
    map t | t in permits && permits[t].expires > now :: permits[t]
  }

  /** The decision of `consume`, in the order of its branches. */
  function Decision(permits: map<Token, Permit>, token: Token, binding: Binding,
                    receipt: Classification, available: bool): PermitResult {
    if receipt == Duplicate then DuplicateReceipt
    else if receipt == Conflict then ConflictingReceipt
    else if receipt != New then Existing
    else if token !in permits then Invalid
    else if permits[token].binding != binding then Mismatch
    else if !available then Unavailable
    else Accepted
  }

  /** The permits after an attempt to issue one that expires at `expires`. */
  function Issued(permits: map<Token, Permit>, binding: Binding, receipt: Classification, available: bool,
                  expires: int, token: Token): map<Token, Permit> {
    if permits == map[] && receipt == New && available then map[token := Permit(binding, expires)] else permits
  }

  /** The permits after an attempt to consume one. */
  function Consumed(permits: map<Token, Permit>, token: Token, binding: Binding,
                    receipt: Classification, available: bool): map<Token, Permit> {
    if Decision(permits, token, binding, receipt, available) == Accepted then permits - {token} else permits
  }

  /** RecoveryAdmissionGate between two acquisitions of its lock. The receipt state and
      the availability that the original awaits inside the lock are parameters. */
  class RecoveryAdmissionGate {
    const ttl: int
    var permits: map<Token, Permit>

    constructor (ttl: int)
      ensures this.ttl == ttl && permits == map[] && Valid()
    {
      this.ttl := ttl;
      permits := map[];
    }

    ghost predicate Valid()
      reads this
    {
      |permits| <= 1
    }

    /** An issued permit is the only one stored, and no unexpired one was; a request for the
        exact binding that enters before it expires can consume it. */
    method Issue(binding: Binding, receipt: Classification, available: bool, entered: int, now: int, newToken: Token)
      returns (issued: bool)
      requires Valid()
      modifies this`permits
      ensures Valid()
      ensures issued ==> permits.Keys == {newToken} && receipt == New && available
      ensures issued ==> forall t :: t in old(permits) ==> old(permits)[t].expires <= entered
      ensures issued ==> forall e, b, a :: e < now + ttl ==>
                (Decision(Unexpired(permits, e), newToken, b, New, a) == Accepted <==> b == binding && a)
      ensures !issued ==> forall t :: t in permits ==> t in old(permits) && permits[t] == old(permits)[t] && permits[t].expires > entered
      ensures !issued && receipt == New && available ==> permits != map[]
      ensures permits == Issued(old(Unexpired(permits, entered)), binding, receipt, available, now + ttl, newToken)
    {
      SweepSmall(permits, entered);
      permits := Unexpired(permits, entered);
      assert forall t :: t in old(permits) && old(permits)[t].expires > entered ==> t in permits;
      issued := permits == map[] && receipt == New && available;
      if issued {
        permits := permits[newToken := Permit(binding, now + ttl)];
      }
    }

    /** A token is accepted only for the binding it was stored with and while unexpired, and
        is then gone for good; any other answer loses no unexpired permit. */
    method Consume(token: Token, binding: Binding, receipt: Classification, available: bool, entered: int)
      returns (result: PermitResult)
      requires Valid()
      modifies this`permits
      ensures Valid()
      ensures result == Accepted <==>
                && receipt == New && available && token in old(permits)
                && old(permits)[token].binding == binding && old(permits)[token].expires > entered
      ensures result == Accepted ==> forall b, c, a :: Decision(permits, token, b, c, a) != Accepted
      ensures result != Accepted ==> forall t :: t in old(permits) && old(permits)[t].expires > entered ==> t in permits
      ensures forall t :: t in permits ==> t in old(permits) && permits[t] == old(permits)[t]
      ensures permits == Consumed(old(Unexpired(permits, entered)), token, binding, receipt, available)
    {
      SweepSmall(permits, entered);
      permits := Unexpired(permits, entered);
      if receipt == Duplicate {
        return DuplicateReceipt;
      } else if receipt == Conflict {
        return ConflictingReceipt;
      } else if receipt != New {
        return Existing;
      } else if token !in permits {
        return Invalid;
      } else if permits[token].binding != binding {
        return Mismatch;
      } else if !available {
        return Unavailable;
      }
      SubsetSmaller((permits - {token}).Keys, permits.Keys);
      permits := permits - {token};
      return Accepted;
    }
  }

  // ---------------------------------------------------------------- interleavings

  /** How far the holder of the lock has come; `entered` is the time of its expiry sweep. */
  datatype Phase = Entered | Classified(receipt: Classification) | Checked(receipt: Classification, available: bool)

  datatype Holder =
    | Nobody
    | Issuing(binding: Binding, entered: int, phase: Phase)
    | Consuming(token: Token, binding: Binding, entered: int, phase: Phase)
    | Admitting(token: Token)          // the body of an accepted `consume`
    | LiveEnqueue                      // `live_enqueue`
    | Continuing(available: bool)      // `run_if_available` past its check

  datatype Acceptance = Acceptance(token: Token, binding: Binding, entered: int)

  /** `issued` and `accepted` are histories over all server generations; `livePending`
      counts the unacknowledged records of the live queue. */
  datatype World = World(
    permits: map<Token, Permit>, now: int, ttl: int, holder: Holder, livePending: nat,
    issued: map<Token, Permit>, accepted: seq<Acceptance>)

  datatype Action =
    | Tick(d: nat)
    | EnterIssue(b: Binding) | EnterConsume(t: Token, b: Binding) | Classify(c: Classification) | CheckAvailable(a: bool)
    | Issue(newToken: Token) | Consume | EndAdmission
    | EnterLive | AppendLive | LeaveLive | DrainLive
    | EnterContinuation(a: bool) | EndContinuation
    | Cancel | Restart

  function Sweep(w: World): World { w.(permits := Unexpired(w.permits, w.now)) }

  /** The availability check answers yes only when no live record is pending; pause
      or a pending receipt may make it answer no as well. */
  predicate MayAnswer(w: World, available: bool) { available ==> w.livePending == 0 }

  function Advance(h: Holder, w: World, a: Action): Holder {
    match (h, a)
    case (Issuing(b, e, Entered), Classify(c)) => Issuing(b, e, Classified(c))
    case (Issuing(b, e, Classified(c)), CheckAvailable(v)) => if MayAnswer(w, v) then Issuing(b, e, Checked(c, v)) else h
    case (Consuming(t, b, e, Entered), Classify(c)) => Consuming(t, b, e, Classified(c))
    case (Consuming(t, b, e, Classified(c)), CheckAvailable(v)) => if MayAnswer(w, v) then Consuming(t, b, e, Checked(c, v)) else h
    case _ => h
  }

  /** The end of `issue`; a token is fresh among all that were ever issued. */
  function IssueStep(w: World, token: Token): World {
    match w.holder
    case Issuing(b, e, Checked(receipt, available)) =>
      if token in w.issued || token == "" then w
      else
        var permits := Issued(w.permits, b, receipt, available, w.now + w.ttl, token);
        w.(permits := permits, holder := Nobody,
           issued := if token in permits then w.issued[token := permits[token]] else w.issued)
    case _ => w
  }

  /** The decision of `consume`. */
  function ConsumeStep(w: World): World {
    match w.holder
    case Consuming(t, b, e, Checked(receipt, available)) =>
      var accepted := Decision(w.permits, t, b, receipt, available) == Accepted;
      w.(permits := Consumed(w.permits, t, b, receipt, available),
         accepted := if accepted then w.accepted + [Acceptance(t, b, e)] else w.accepted,
         holder := if accepted then Admitting(t) else Nobody)
    case _ => w
  }

  function Step(w: World, a: Action): World {
    match a
    case Tick(d) => w.(now := w.now + d)
    case EnterIssue(b) => if w.holder.Nobody? then Sweep(w).(holder := Issuing(b, w.now, Entered)) else w
    case EnterConsume(t, b) => if w.holder.Nobody? then Sweep(w).(holder := Consuming(t, b, w.now, Entered)) else w
    case Classify(_) => w.(holder := Advance(w.holder, w, a))
    case CheckAvailable(_) => w.(holder := Advance(w.holder, w, a))
    case Issue(token) => IssueStep(w, token)
    case Consume => ConsumeStep(w)
    case EndAdmission => if w.holder.Admitting? then w.(holder := Nobody) else w
    case EnterLive => if w.holder.Nobody? then w.(holder := LiveEnqueue) else w
    case AppendLive => if w.holder.LiveEnqueue? then w.(livePending := w.livePending + 1) else w
    case LeaveLive => if w.holder.LiveEnqueue? then w.(holder := Nobody) else w
    case DrainLive => if w.livePending > 0 then w.(livePending := w.livePending - 1) else w
    case EnterContinuation(v) => if w.holder.Nobody? && MayAnswer(w, v) then w.(holder := Continuing(v)) else w
    case EndContinuation => if w.holder.Continuing? then w.(holder := Nobody) else w
    case Cancel => w.(holder := Nobody)
    case Restart => w.(permits := map[], holder := Nobody)
  }

  function Run(w: World, actions: seq<Action>): World
    decreases |actions|
  {
    if actions == [] then w else Run(Step(w, actions[0]), actions[1..])
  }

  predicate Init(w: World) {
    w.permits == map[] && w.holder.Nobody? && w.issued == map[] && w.accepted == []
  }

  // ---------------------------------------------------------------- invariant

  /** The holder has committed to a recovery admission that must precede live work. */
  ghost predicate LiveFirst(w: World) {
    match w.holder
    case Issuing(_, _, Checked(_, available)) => available ==> w.livePending == 0
    case Consuming(_, _, _, Checked(_, available)) => available ==> w.livePending == 0
    case Admitting(_) => w.livePending == 0
    case Continuing(available) => available ==> w.livePending == 0
    case _ => true
  }

  /** What is stored was issued, and at most one is stored. */
  ghost predicate PermitsOk(permits: map<Token, Permit>, issued: map<Token, Permit>) {
    |permits| <= 1 && "" !in issued && forall t | t in permits :: t in issued && issued[t] == permits[t]
  }

  /** An acceptance of an issued permit that is stored no more. */
  ghost predicate AcceptanceOk(permits: map<Token, Permit>, issued: map<Token, Permit>, a: Acceptance) {
    && a.token in issued && a.token !in permits
    && a.binding == issued[a.token].binding && a.entered < issued[a.token].expires
  }

  ghost predicate HistoryOk(permits: map<Token, Permit>, issued: map<Token, Permit>, accepted: seq<Acceptance>) {
    && (forall i | 0 <= i < |accepted| :: AcceptanceOk(permits, issued, accepted[i]))
    && (forall i, j | 0 <= i < j < |accepted| :: accepted[i].token != accepted[j].token)
  }

  ghost predicate Swept(h: Holder, permits: map<Token, Permit>) {
    h.Consuming? ==> forall t | t in permits :: h.entered < permits[t].expires
  }

  ghost predicate Inv(w: World) {
    PermitsOk(w.permits, w.issued) && HistoryOk(w.permits, w.issued, w.accepted) && Swept(w.holder, w.permits) && LiveFirst(w)
  }

  lemma SweepSmall(permits: map<Token, Permit>, now: int)
    ensures |Unexpired(permits, now)| <= |permits|
  {
    var u := Unexpired(permits, now);
    assert u.Keys <= permits.Keys;
    SubsetSmaller(u.Keys, permits.Keys);
  }

  lemma {:induction false} SubsetSmaller<T>(a: set<T>, b: set<T>)
    requires a <= b
    ensures |a| <= |b|
  {
    if a == {} {
    } else {
      var x :| x in a;
      SubsetSmaller(a - {x}, b - {x});
    }
  }

  /** A sweep, or a restart, only drops permits. */
  lemma FewerPermits(permits: map<Token, Permit>, fewer: map<Token, Permit>, issued: map<Token, Permit>, accepted: seq<Acceptance>)
    requires PermitsOk(permits, issued) && HistoryOk(permits, issued, accepted)
    requires fewer.Keys <= permits.Keys && forall t | t in fewer :: fewer[t] == permits[t]
    ensures PermitsOk(fewer, issued) && HistoryOk(fewer, issued, accepted)
  {
    SubsetSmaller(fewer.Keys, permits.Keys);
    forall i | 0 <= i < |accepted| ensures AcceptanceOk(fewer, issued, accepted[i]) {
      assert AcceptanceOk(permits, issued, accepted[i]);
    }
  }

  lemma IssueKeepsInv(w: World, token: Token)
    requires Inv(w)
    ensures Inv(IssueStep(w, token))
  {
    var v := IssueStep(w, token);
    forall i | 0 <= i < |v.accepted| ensures AcceptanceOk(v.permits, v.issued, v.accepted[i]) {
      assert AcceptanceOk(w.permits, w.issued, w.accepted[i]);
    }
  }

  /** A stored permit that is accepted is stored no more and was not accepted before. */
  lemma AcceptanceRecorded(permits: map<Token, Permit>, issued: map<Token, Permit>, accepted: seq<Acceptance>, a: Acceptance)
    requires PermitsOk(permits, issued) && HistoryOk(permits, issued, accepted)
    requires a.token in permits && permits[a.token].binding == a.binding && a.entered < permits[a.token].expires
    ensures HistoryOk(permits - {a.token}, issued, accepted + [a])
  {
    forall i | 0 <= i < |accepted| ensures AcceptanceOk(permits - {a.token}, issued, accepted[i]) && accepted[i].token != a.token {
      assert AcceptanceOk(permits, issued, accepted[i]);
    }
  }

  lemma ConsumeKeepsInv(w: World)
    requires Inv(w)
    ensures Inv(ConsumeStep(w))
  {
    var v := ConsumeStep(w);
    if v.holder.Admitting? && w.holder.Consuming? {
      var h := w.holder;
      FewerPermits(w.permits, w.permits - {h.token}, w.issued, w.accepted);
      AcceptanceRecorded(w.permits, w.issued, w.accepted, Acceptance(h.token, h.binding, h.entered));
    }
  }

  lemma StepKeepsInv(w: World, a: Action)
    requires Inv(w)
    ensures Inv(Step(w, a))
  {
    match a
    case Issue(token) => IssueKeepsInv(w, token);
    case Consume => ConsumeKeepsInv(w);
    case EnterIssue(_) => FewerPermits(w.permits, Unexpired(w.permits, w.now), w.issued, w.accepted);
    case EnterConsume(_, _) => FewerPermits(w.permits, Unexpired(w.permits, w.now), w.issued, w.accepted);
    case Restart => FewerPermits(w.permits, map[], w.issued, w.accepted);
    case _ =>
  }

  lemma {:induction false} RunKeepsInv(w: World, actions: seq<Action>)
    requires Inv(w)
    ensures Inv(Run(w, actions))
    decreases |actions|
  {
    if actions == [] {
    } else {
      StepKeepsInv(w, actions[0]);
      RunKeepsInv(Step(w, actions[0]), actions[1..]);
    }
  }

  // ---------------------------------------------------------------- theorems

  /** Over every interleaving, cancellation and restart: at most one permit is stored. */
  lemma AtMostOnePermit(w: World, actions: seq<Action>)
    requires Init(w)
    ensures |Run(w, actions).permits| <= 1
  {
    RunKeepsInv(w, actions);
  }

  /** Every token is accepted at most once, only for the binding it was issued for, and only
      if it had not expired when the accepting request took the lock. */
  lemma TokensAreSingleUse(w: World, actions: seq<Action>, i: nat)
    requires Init(w) && i < |Run(w, actions).accepted|
    ensures var v := Run(w, actions);
            var a := v.accepted[i];
            && a.token in v.issued && a.binding == v.issued[a.token].binding && a.entered < v.issued[a.token].expires
            && (forall j | 0 <= j < |v.accepted| && j != i :: v.accepted[j].token != a.token)
  {
    RunKeepsInv(w, actions);
    assert AcceptanceOk(Run(w, actions).permits, Run(w, actions).issued, Run(w, actions).accepted[i]);
  }

  /** No live record is pending at any point of an accepted admission: none was when
      availability was checked and none can be appended before the admission ends. */
  lemma AdmissionPrecedesLiveWork(w: World, actions: seq<Action>)
    requires Init(w) && Run(w, actions).holder.Admitting?
    ensures Run(w, actions).livePending == 0
  {
    RunKeepsInv(w, actions);
  }
}
