/** Ownership claims on sessions, and the storage names the claims own.

    Two tables are kept in step: claims by session, and bindings from a folded queue or
    blob name to the one session that owns it. A binding to no session marks a name that
    was already ambiguous when the bindings were first built.
 */
module SessionClaims {
  import opened BlobAddress
  import opened Options

  type Session = string
  type Token = string

  const MAX_QUEUE_KEY_BYTES: nat := 211

  datatype Kind = Queue | Blob

  /** One storage name. */
  datatype Slot = Slot(kind: Kind, component: string)

  /** `token` is None for a committed claim. */
  datatype ClaimRow = ClaimRow(contributor: string, workspace: string, token: Option<Token>)

  datatype Tables = Tables(claims: map<Session, ClaimRow>, bindings: map<Slot, Option<Session>>)

  datatype Reservation = Reserved | ExistingReservation | Committed | Conflict

  /** How a session id turns into its queue key and, if it is a valid directory name, its
      blob directory. */
  datatype Names = Names(queue: Session -> string, blob: Session -> Option<string>)

  /** A folded blob name is its own folded form. */
  ghost predicate Canonical(names: Names) {
    forall s :: names.blob(s).Some? ==> names.blob(names.blob(s).value) == names.blob(s)
  }

  /** The names the queue and the blob store derive. */
  ghost function FoldedNames(h: string -> string): Names
    requires Digest(h)
  {
    Names(s => Fold(h, s, MAX_QUEUE_KEY_BYTES),
          s => if Component(s) then Some(Fold(h, s, MAX_SESSION_BYTES)) else None)
  }

  lemma FoldedNamesAreCanonical(h: string -> string)
    requires Digest(h)
    ensures Canonical(FoldedNames(h))
  {
    forall s | Component(s) ensures Component(Fold(h, s, MAX_SESSION_BYTES)) {
      FoldedComponent(h, s, MAX_SESSION_BYTES);
    }
    forall s ensures Fold(h, Fold(h, s, MAX_SESSION_BYTES), MAX_SESSION_BYTES) == Fold(h, s, MAX_SESSION_BYTES) {
      FoldFits(h, s, MAX_SESSION_BYTES);
    }
  }

  /** The storage names of a session; one that is not a valid blob directory has only one. */
  function Slots(names: Names, s: Session): (r: seq<Slot>)
    ensures 1 <= |r| <= 2 && r[0].kind == Queue && (|r| == 2 ==> r[1].kind == Blob)
  {
    [Slot(Queue, names.queue(s))] + match names.blob(s) case None => [] case Some(c) => [Slot(Blob, c)]
  }

  // ---------------------------------------------------------------- transactions as functions

  predicate Bindable(names: Names, t: Tables, s: Session)
  {
    && |Slots(names, s)| == 2
    && forall i :: 0 <= i < 2 ==> Slots(names, s)[i] in t.bindings ==> t.bindings[Slots(names, s)[i]] == Some(s)
  }

  function Bound(names: Names, t: Tables, s: Session): (r: map<Slot, Option<Session>>)
    requires Bindable(names, t, s)
    ensures forall x :: x in r <==> x in t.bindings || x in Slots(names, s)
    ensures forall x :: x in Slots(names, s) ==> r[x] == Some(s)
    ensures forall x :: x in t.bindings ==> r[x] == t.bindings[x]
  {
    t.bindings[Slots(names, s)[0] := Some(s)][Slots(names, s)[1] := Some(s)]
  }

  predicate BindingsMatch(names: Names, t: Tables, s: Session)
  {
    && |Slots(names, s)| == 2
    && forall i :: 0 <= i < 2 ==> Slots(names, s)[i] in t.bindings && t.bindings[Slots(names, s)[i]] == Some(s)
  }

  function DoClaim(names: Names, t: Tables, s: Session, who: string, ws: string): (Tables, bool)
  {
    if s in t.claims && t.claims[s] != ClaimRow(who, ws, None) then (t, false)
    else if !Bindable(names, t, s) then (t, false)
    else (Tables(t.claims[s := ClaimRow(who, ws, None)], Bound(names, t, s)), true)
  }

  function DoReserve(names: Names, t: Tables, s: Session, who: string, ws: string, k: Token)
    : (Tables, Reservation)
  {
    if s in t.claims && t.claims[s] != ClaimRow(who, ws, None) && t.claims[s] != ClaimRow(who, ws, Some(k)) then
      (t, Conflict)
    else if !Bindable(names, t, s) then (t, Conflict)
    else if s in t.claims then
      (t.(bindings := Bound(names, t, s)), if t.claims[s].token.None? then Committed else ExistingReservation)
    else
      (Tables(t.claims[s := ClaimRow(who, ws, Some(k))], Bound(names, t, s)), Reserved)
  }

  function DoFinalize(names: Names, t: Tables, s: Session, who: string, ws: string, k: Token): (Tables, bool)
  {
    if s !in t.claims || t.claims[s].contributor != who || t.claims[s].workspace != ws || !BindingsMatch(names, t, s) then
      (t, false)
    else if t.claims[s].token.None? then (t, true)
    else if t.claims[s].token != Some(k) then (t, false)
    else (t.(claims := t.claims[s := ClaimRow(who, ws, None)]), true)
  }

  function DoRelease(t: Tables, s: Session, who: string, ws: string, k: Token): Tables {
    if s in t.claims && t.claims[s] == ClaimRow(who, ws, Some(k)) then
      Tables(t.claims - {s}, map x | x in t.bindings && t.bindings[x] != Some(s) :: t.bindings[x])
    else t
  }

  function Workspace(t: Tables, s: Session): Option<string> {
    if s in t.claims && t.claims[s].token.None? then Some(t.claims[s].workspace) else None
  }

  /** The join of the two tables on a blob name. */
  function BlobWorkspace(names: Names, t: Tables, s: Session): Option<string>
  {
    match names.blob(s)
    case None => None
    case Some(c) =>
      if Slot(Blob, c) in t.bindings && t.bindings[Slot(Blob, c)].Some?
      then Workspace(t, t.bindings[Slot(Blob, c)].value) else None
  }

  // ---------------------------------------------------------------- the backfill

  /** Who, among some sessions, would own a name. */
  function Owners(names: Names, sessions: set<Session>, x: Slot): set<Session>
  {
    set s | s in sessions && x in Slots(names, s)
  }

  /** What the binding of a name should be, with no order in sight: a name that one session
      has is bound to it, a name that several have is bound to none. */
  ghost predicate SlotOk(names: Names, sessions: set<Session>, bindings: map<Slot, Option<Session>>, x: Slot) {
    && (x in bindings <==> Owners(names, sessions, x) != {})
    && (x in bindings ==> forall s :: bindings[x] == Some(s) <==> Owners(names, sessions, x) == {s})
  }

  ghost predicate Unambiguous(names: Names, sessions: set<Session>, bindings: map<Slot, Option<Session>>) {
    forall x :: SlotOk(names, sessions, bindings, x)
  }

  /** So the rows and their order do not matter beyond the set of sessions in them. */
  lemma BackfillIsUnique(names: Names, sessions: set<Session>,
                         a: map<Slot, Option<Session>>, b: map<Slot, Option<Session>>)
    requires Unambiguous(names, sessions, a) && Unambiguous(names, sessions, b)
    ensures a == b
  {
    forall x ensures (x in a <==> x in b) && (x in a ==> a[x] == b[x]) {
      assert SlotOk(names, sessions, a, x) && SlotOk(names, sessions, b, x);
      if x in a {
        if a[x].Some? {
          assert Owners(names, sessions, x) == {a[x].value};
        } else if b[x].Some? {
          assert Owners(names, sessions, x) == {b[x].value};
        }
      }
    }
  }

  function Upsert(bindings: map<Slot, Option<Session>>, x: Slot, s: Session): map<Slot, Option<Session>> {
    if x !in bindings then bindings[x := Some(s)]
    else if bindings[x] == Some(s) then bindings
    else bindings[x := None]
  }

  /** One session more: its names are bound to it if they were free, else to none. */
  predicate Upserted(before: map<Slot, Option<Session>>, slots: seq<Slot>, s: Session,
                     after: map<Slot, Option<Session>>) {
    && after.Keys == before.Keys + (set x | x in slots)
    && forall x :: x in after ==>
         after[x] == if x !in slots then before[x] else if x in before then None else Some(s)
  }

  lemma SlotExtends(names: Names, sessions: set<Session>, before: map<Slot, Option<Session>>,
                    s: Session, after: map<Slot, Option<Session>>, x: Slot)
    requires SlotOk(names, sessions, before, x) && s !in sessions && Upserted(before, Slots(names, s), s, after)
    ensures SlotOk(names, sessions + {s}, after, x)
  {
    var was, now := Owners(names, sessions, x), Owners(names, sessions + {s}, x);
    if x !in Slots(names, s) {
      assert now == was;
    } else {
      assert now == was + {s} && s !in was;
      if x in before {
        var v :| v in was;
        assert v in now && s in now;
      } else {
        assert now == {s};
      }
    }
  }

  function SetOf(rows: seq<Session>): set<Session> { set s | s in rows }

  // ---------------------------------------------------------------- the store

  class SessionClaimStore {
    const names: Names
    var claims: map<Session, ClaimRow>
    var bindings: map<Slot, Option<Session>>

    constructor (names: Names)
      ensures this.names == names && Now() == Tables(map[], map[])
    {
      this.names := names;
      claims, bindings := map[], map[];
    }

    ghost function Now(): Tables
      reads this
    {
      Tables(claims, bindings)
    }

    /** Build the bindings of a store that has claims and no bindings table, from its rows
        in whatever order the query gives them. */
    method Backfill(rows: seq<Session>)
      requires forall i, j :: 0 <= i < j < |rows| ==> rows[i] != rows[j]
      modifies this`bindings
      ensures Unambiguous(names, SetOf(rows), bindings)
    {
      bindings := map[];
      for i := 0 to |rows|
        invariant Unambiguous(names, SetOf(rows[..i]), bindings)
      {
        ghost var before, seen := bindings, SetOf(rows[..i]);
        forall x | x in bindings ensures bindings[x] != Some(rows[i]) {
          assert SlotOk(names, seen, bindings, x);
          assert rows[i] !in Owners(names, seen, x);
        }
        UpsertAll(Slots(names, rows[i]), rows[i]);
        forall x ensures SlotOk(names, seen + {rows[i]}, bindings, x) {
          assert SlotOk(names, seen, before, x);
          SlotExtends(names, seen, before, rows[i], bindings, x);
        }
        assert SetOf(rows[..i + 1]) == seen + {rows[i]};
      }
      assert rows[..|rows|] == rows;
    }

    /** Enter one session's names. */
    method UpsertAll(slots: seq<Slot>, s: Session)
      requires forall i, j :: 0 <= i < j < |slots| ==> slots[i] != slots[j]
      requires forall x :: x in bindings ==> bindings[x] != Some(s)
      modifies this`bindings
      ensures Upserted(old(bindings), slots, s, bindings)
    {
      for j := 0 to |slots|
        invariant Upserted(old(bindings), slots[..j], s, bindings)
      {
        bindings := Upsert(bindings, slots[j], s);
        assert slots[..j + 1] == slots[..j] + [slots[j]];
      }
      assert slots[..|slots|] == slots;
    }

    /** Check both names before taking either. */
    method Bind(s: Session) returns (ok: bool)
      modifies this`bindings
      ensures ok == Bindable(names, old(Now()), s)
      ensures bindings == if ok then Bound(names, old(Now()), s) else old(bindings)
    {
      var slots := Slots(names, s);
      if |slots| != 2 {
        return false;
      }
      for i := 0 to 2
        invariant forall j :: 0 <= j < i ==> slots[j] in bindings ==> bindings[slots[j]] == Some(s)
      {
        if slots[i] in bindings && bindings[slots[i]] != Some(s) {
          return false;
        }
      }
      for i := 0 to 2
        invariant bindings.Keys == old(bindings).Keys + (set x | x in slots[..i])
        invariant forall x :: x in bindings ==> bindings[x] == if x in old(bindings) then old(bindings)[x] else Some(s)
      {
        if slots[i] !in bindings {
          bindings := bindings[slots[i] := Some(s)];
        }
        assert slots[..i + 1] == slots[..i] + [slots[i]];
      }
      assert slots[..2] == slots;
      assert bindings == Bound(names, old(Now()), s);
      return true;
    }

    method Claim(s: Session, who: string, ws: string) returns (ok: bool)
      modifies this
      ensures (Now(), ok) == DoClaim(names, old(Now()), s, who, ws)
    {
      if s in claims && (claims[s].token.Some? || claims[s].contributor != who || claims[s].workspace != ws) {
        return false;
      }
      var bound := Bind(s);
      if !bound {
        return false;
      }
      if s !in claims {
        claims := claims[s := ClaimRow(who, ws, None)];
      } else {
        assert claims == claims[s := claims[s]];
      }
      return true;
    }

    method ReserveRecovery(s: Session, who: string, ws: string, k: Token) returns (r: Reservation)
      modifies this
      ensures (Now(), r) == DoReserve(names, old(Now()), s, who, ws, k)
    {
      if s in claims && (claims[s].contributor != who || claims[s].workspace != ws
                         || (claims[s].token.Some? && claims[s].token != Some(k))) {
        return Conflict;
      }
      var bound := Bind(s);
      if !bound {
        return Conflict;
      }
      if s !in claims {
        claims := claims[s := ClaimRow(who, ws, Some(k))];
        return Reserved;
      }
      return if claims[s].token.None? then Committed else ExistingReservation;
    }

    method FinalizeRecovery(s: Session, who: string, ws: string, k: Token) returns (ok: bool)
      modifies this`claims
      ensures (Now(), ok) == DoFinalize(names, old(Now()), s, who, ws, k)
    {
      if s !in claims || claims[s].contributor != who || claims[s].workspace != ws {
        return false;
      }
      var slots := Slots(names, s);
      if |slots| != 2 {
        return false;
      }
      for i := 0 to 2
        invariant forall j :: 0 <= j < i ==> slots[j] in bindings && bindings[slots[j]] == Some(s)
      {
        if slots[i] !in bindings || bindings[slots[i]] != Some(s) {
          return false;
        }
      }
      if claims[s].token.None? {
        return true;
      }
      if claims[s].token != Some(k) {
        return false;
      }
      claims := claims[s := claims[s].(token := None)];
      return true;
    }

    /** A released reservation frees every unambiguous name it held and touches no other
        claim; without the exact owner and token nothing changes. */
    method ReleaseRecovery(s: Session, who: string, ws: string, k: Token)
      modifies this
      ensures old(Inv(names, Now())) ==> Inv(names, Now())
      ensures forall u :: u != s ==> (u in claims <==> u in old(claims)) && (u in claims ==> claims[u] == old(claims)[u])
      ensures s in claims <==> s in old(claims) && old(claims)[s] != ClaimRow(who, ws, Some(k))
      ensures s in old(claims) && s !in claims ==> forall x :: x in bindings ==> bindings[x] != Some(s)
      ensures forall x :: x in old(bindings) && old(bindings)[x] != Some(s) ==> x in bindings && bindings[x] == old(bindings)[x]
      ensures s in claims ==> Now() == old(Now())
      ensures Now() == DoRelease(old(Now()), s, who, ws, k)
    {
      ghost var t := Now();
      if s in claims && claims[s] == ClaimRow(who, ws, Some(k)) {
        claims := claims - {s};
        bindings := map x | x in bindings && bindings[x] != Some(s) :: bindings[x];
      }
      if Inv(names, t) {
        ReleaseKeepsInv(names, t, s, who, ws, k);
      }
    }
  }

  // ---------------------------------------------------------------- runs

  datatype Action =
    | Claiming(s: Session, who: string, ws: string)
    | Reserving(s: Session, who: string, ws: string, k: Token)
    | Finalizing(s: Session, who: string, ws: string, k: Token)
    | Releasing(s: Session, who: string, ws: string, k: Token)

  function Step(names: Names, t: Tables, a: Action): Tables
  {
    match a
    case Claiming(s, who, ws) => DoClaim(names, t, s, who, ws).0
    case Reserving(s, who, ws, k) => DoReserve(names, t, s, who, ws, k).0
    case Finalizing(s, who, ws, k) => DoFinalize(names, t, s, who, ws, k).0
    case Releasing(s, who, ws, k) => DoRelease(t, s, who, ws, k)
  }

  function Run(names: Names, t: Tables, acts: seq<Action>): Tables
    decreases |acts|
  {
    if acts == [] then t else Run(names, Step(names, t, acts[0]), acts[1..])
  }

  /** Every name of a live claim is bound to it or marked ambiguous. */
  predicate ClaimsBound(names: Names, t: Tables)
  {
    forall s, i :: s in t.claims && 0 <= i < |Slots(names, s)| ==>
      Slots(names, s)[i] in t.bindings && (t.bindings[Slots(names, s)[i]] == Some(s) || t.bindings[Slots(names, s)[i]] == None)
  }

  /** Every bound name is a name of a live claim. */
  predicate BindingsClaimed(names: Names, t: Tables)
  {
    forall x :: x in t.bindings && t.bindings[x].Some? ==>
      t.bindings[x].value in t.claims && x in Slots(names, t.bindings[x].value)
  }

  predicate Inv(names: Names, t: Tables)
  {
    ClaimsBound(names, t) && BindingsClaimed(names, t)
  }

  /** A store built by the backfill satisfies the invariant. */
  lemma BackfillEstablishesInv(names: Names, t: Tables)
    requires Unambiguous(names, t.claims.Keys, t.bindings)
    ensures Inv(names, t)
  {
    forall s, i | s in t.claims && 0 <= i < |Slots(names, s)|
      ensures Slots(names, s)[i] in t.bindings
      ensures t.bindings[Slots(names, s)[i]] == Some(s) || t.bindings[Slots(names, s)[i]] == None
    {
      var x := Slots(names, s)[i];
      assert SlotOk(names, t.claims.Keys, t.bindings, x);
      assert s in Owners(names, t.claims.Keys, x);
      if t.bindings[x].Some? {
        assert Owners(names, t.claims.Keys, x) == {t.bindings[x].value};
      }
    }
    forall x | x in t.bindings && t.bindings[x].Some?
      ensures t.bindings[x].value in t.claims && x in Slots(names, t.bindings[x].value)
    {
      assert SlotOk(names, t.claims.Keys, t.bindings, x);
      assert t.bindings[x].value in Owners(names, t.claims.Keys, x);
    }
  }

  lemma BoundKeepsInv(names: Names, t: Tables, s: Session, c: ClaimRow)
    requires Inv(names, t) && Bindable(names, t, s)
    ensures Inv(names, Tables(t.claims[s := c], Bound(names, t, s)))
  {
    var n := Tables(t.claims[s := c], Bound(names, t, s));
    forall u, i | u in n.claims && 0 <= i < |Slots(names, u)|
      ensures Slots(names, u)[i] in n.bindings
      ensures n.bindings[Slots(names, u)[i]] == Some(u) || n.bindings[Slots(names, u)[i]] == None
    {
      if u != s {
        assert Slots(names, u)[i] in t.bindings;
      } else {
        assert Slots(names, s)[i] in Slots(names, s);
      }
    }
  }

  lemma ReleaseKeepsInv(names: Names, t: Tables, s: Session, who: string, ws: string, k: Token)
    requires Inv(names, t)
    ensures Inv(names, DoRelease(t, s, who, ws, k))
  {
  }

  lemma StepKeepsInv(names: Names, t: Tables, a: Action)
    requires Inv(names, t)
    ensures Inv(names, Step(names, t, a))
  {
    match a
    case Claiming(s, who, ws) =>
      if Bindable(names, t, s) { BoundKeepsInv(names, t, s, ClaimRow(who, ws, None)); }
    case Reserving(s, who, ws, k) =>
      if Bindable(names, t, s) {
        BoundKeepsInv(names, t, s, ClaimRow(who, ws, Some(k)));
        if s in t.claims {
          BoundKeepsInv(names, t, s, t.claims[s]);
          assert t.claims[s := t.claims[s]] == t.claims;
        }
      }
    case Finalizing(s, who, ws, k) =>
    case Releasing(s, who, ws, k) => ReleaseKeepsInv(names, t, s, who, ws, k);
  }

  /** A committed claim does not change, and an ambiguous name stays ambiguous. */
  lemma StepKeepsFacts(names: Names, t: Tables, a: Action)
    ensures forall s :: s in t.claims && t.claims[s].token.None? ==>
              s in Step(names, t, a).claims && Step(names, t, a).claims[s] == t.claims[s]
    ensures forall x :: x in t.bindings && t.bindings[x].None? ==>
              x in Step(names, t, a).bindings && Step(names, t, a).bindings[x].None?
    ensures forall x :: x in Step(names, t, a).bindings && Step(names, t, a).bindings[x].None? ==>
              x in t.bindings && t.bindings[x].None?
  {
  }

  /** A new reservation can be undone: releasing it leaves both tables as they were. */
  lemma ReleaseUndoesReserve(names: Names, t: Tables, s: Session, who: string, ws: string, k: Token)
    requires Inv(names, t) && DoReserve(names, t, s, who, ws, k).1 == Reserved
    ensures DoRelease(DoReserve(names, t, s, who, ws, k).0, s, who, ws, k) == t
  {
    var n := DoReserve(names, t, s, who, ws, k).0;
    var after := DoRelease(n, s, who, ws, k);
    assert after.claims == t.claims;
    forall x ensures (x in after.bindings <==> x in t.bindings) && (x in t.bindings ==> after.bindings[x] == t.bindings[x]) {
      if x in t.bindings && t.bindings[x].Some? {
        assert t.bindings[x].value in t.claims;
      }
    }
    assert after.bindings == t.bindings;
  }

  /** The life of a reservation: the same request finds it again, another owner or token is
      turned away without a trace, nobody sees its workspace, and finalizing it commits it. */
  lemma ReservationLife(names: Names, t: Tables, s: Session, who: string, ws: string, k: Token,
                        other: string, where: string, key: Token)
    requires DoReserve(names, t, s, who, ws, k).1 == Reserved
    ensures var n := DoReserve(names, t, s, who, ws, k).0;
            && DoReserve(names, n, s, who, ws, k) == (n, ExistingReservation) && Workspace(n, s) == None
            && (other != who || where != ws || key != k ==>
                  && DoReserve(names, n, s, other, where, key) == (n, Conflict)
                  && DoFinalize(names, n, s, other, where, key) == (n, false)
                  && DoRelease(n, s, other, where, key) == n)
            && DoClaim(names, n, s, other, where) == (n, false)
            && DoFinalize(names, n, s, who, ws, k) == (n.(claims := n.claims[s := ClaimRow(who, ws, None)]), true)
            && DoReserve(names, DoFinalize(names, n, s, who, ws, k).0, s, who, ws, k).1 == Committed
  {
    var n := DoReserve(names, t, s, who, ws, k).0;
    assert Slots(names, s)[0] in Slots(names, s) && Slots(names, s)[1] in Slots(names, s);
    BindAgain(names, t, s, n);
    BindAgain(names, t, s, DoFinalize(names, n, s, who, ws, k).0);
  }

  /** What was bound to a session can be bound to it again, with no change. */
  lemma BindAgain(names: Names, t: Tables, s: Session, n: Tables)
    requires Bindable(names, t, s) && n.bindings == Bound(names, t, s)
    ensures Bindable(names, n, s) && BindingsMatch(names, n, s) && Bound(names, n, s) == n.bindings
  {
    assert Slots(names, s)[0] in Slots(names, s) && Slots(names, s)[1] in Slots(names, s);
  }

  /** A claim that succeeds is seen by everyone, can be repeated by its owner with no change,
      and by nobody else. */
  lemma ClaimIsExclusive(names: Names, t: Tables, s: Session, who: string, ws: string, other: string, where: string)
    requires DoClaim(names, t, s, who, ws).1
    ensures var n := DoClaim(names, t, s, who, ws).0;
            && Workspace(n, s) == Some(ws)
            && DoClaim(names, n, s, other, where) == (n, other == who && where == ws)
  {
    var n := DoClaim(names, t, s, who, ws).0;
    BindAgain(names, t, s, n);
    assert n.claims[s := ClaimRow(who, ws, None)] == n.claims;
  }

  lemma {:induction false} RunKeepsInv(names: Names, t: Tables, acts: seq<Action>)
    requires Inv(names, t)
    ensures Inv(names, Run(names, t, acts))
    decreases |acts|
  {
    if acts == [] {
    } else {
      StepKeepsInv(names, t, acts[0]);
      RunKeepsInv(names, Step(names, t, acts[0]), acts[1..]);
    }
  }

  /** A committed claim keeps its contributor and workspace for ever. */
  lemma {:induction false} CommittedForEver(names: Names, t: Tables, acts: seq<Action>, s: Session)
    requires s in t.claims && t.claims[s].token.None?
    ensures s in Run(names, t, acts).claims && Run(names, t, acts).claims[s] == t.claims[s]
    decreases |acts|
  {
    if acts == [] {
    } else {
      StepKeepsFacts(names, t, acts[0]);
      CommittedForEver(names, Step(names, t, acts[0]), acts[1..], s);
    }
  }

  /** The ambiguous names of a store are exactly those it started with. */
  lemma {:induction false} AmbiguityIsFixed(names: Names, t: Tables, acts: seq<Action>, x: Slot)
    ensures (x in t.bindings && t.bindings[x].None?) <==>
            (x in Run(names, t, acts).bindings && Run(names, t, acts).bindings[x].None?)
    decreases |acts|
  {
    if acts == [] {
    } else {
      StepKeepsFacts(names, t, acts[0]);
      AmbiguityIsFixed(names, Step(names, t, acts[0]), acts[1..], x);
    }
  }

  /** A session with an ambiguous name can never be claimed, reserved or finalized. */
  lemma AmbiguousNeverBound(names: Names, t: Tables, acts: seq<Action>, s: Session, i: nat,
                            who: string, ws: string, k: Token)
    requires i < |Slots(names, s)| && Slots(names, s)[i] in t.bindings && t.bindings[Slots(names, s)[i]].None?
    ensures var n := Run(names, t, acts);
            && DoClaim(names, n, s, who, ws) == (n, false)
            && DoReserve(names, n, s, who, ws, k) == (n, Conflict)
            && DoFinalize(names, n, s, who, ws, k) == (n, false)
  {
    AmbiguityIsFixed(names, t, acts, Slots(names, s)[i]);
  }

  /** Two live claims share a storage name only where the name was ambiguous from the start;
      in a store that began empty, never. */
  lemma NamesAreNotShared(names: Names, t: Tables, acts: seq<Action>, s: Session, u: Session, i: nat, j: nat)
    requires Inv(names, t) && s != u
    requires s in Run(names, t, acts).claims && u in Run(names, t, acts).claims
    requires i < |Slots(names, s)| && j < |Slots(names, u)| && Slots(names, s)[i] == Slots(names, u)[j]
    ensures Slots(names, s)[i] in t.bindings && t.bindings[Slots(names, s)[i]].None?
  {
    RunKeepsInv(names, t, acts);
    AmbiguityIsFixed(names, t, acts, Slots(names, s)[i]);
  }

  lemma FreshStoreNeverShares(names: Names, acts: seq<Action>, s: Session, u: Session)
    requires s != u
    requires s in Run(names, Tables(map[], map[]), acts).claims && u in Run(names, Tables(map[], map[]), acts).claims
    ensures names.queue(s) != names.queue(u)
    ensures names.blob(s).Some? && names.blob(s) != names.blob(u)
  {
    var t := Tables(map[], map[]);
    FreshClaimsHaveBoth(names, acts, s);
    FreshClaimsHaveBoth(names, acts, u);
    if Slots(names, s)[0] == Slots(names, u)[0] {
      NamesAreNotShared(names, t, acts, s, u, 0, 0);
    }
    if Slots(names, s)[1] == Slots(names, u)[1] {
      NamesAreNotShared(names, t, acts, s, u, 1, 1);
    }
  }

  predicate BothNames(names: Names, t: Tables)
  {
    forall s :: s in t.claims ==> |Slots(names, s)| == 2
  }

  lemma StepKeepsBothNames(names: Names, t: Tables, a: Action)
    requires BothNames(names, t)
    ensures BothNames(names, Step(names, t, a))
  {
  }

  lemma {:induction false} RunKeepsBothNames(names: Names, t: Tables, acts: seq<Action>)
    requires BothNames(names, t)
    ensures BothNames(names, Run(names, t, acts))
    decreases |acts|
  {
    if acts == [] {
    } else {
      StepKeepsBothNames(names, t, acts[0]);
      RunKeepsBothNames(names, Step(names, t, acts[0]), acts[1..]);
    }
  }

  lemma FreshClaimsHaveBoth(names: Names, acts: seq<Action>, s: Session)
    requires s in Run(names, Tables(map[], map[]), acts).claims
    ensures names.blob(s).Some? && |Slots(names, s)| == 2
  {
    RunKeepsBothNames(names, Tables(map[], map[]), acts);
  }

  /** In a store that began empty, the workspace found through the blob name of a claimed
      session, or through the folded spelling of that name, is the session's own. */
  lemma BlobWorkspaceIsOwn(names: Names, acts: seq<Action>, s: Session)
    requires Canonical(names) && s in Run(names, Tables(map[], map[]), acts).claims
    ensures var t := Run(names, Tables(map[], map[]), acts);
            && names.blob(s).Some?
            && BlobWorkspace(names, t, s) == Workspace(t, s)
            && BlobWorkspace(names, t, names.blob(s).value) == Workspace(t, s)
  {
    var t0 := Tables(map[], map[]);
    var t := Run(names, t0, acts);
    RunKeepsInv(names, t0, acts);
    FreshClaimsHaveBoth(names, acts, s);
    AmbiguityIsFixed(names, t0, acts, Slots(names, s)[1]);
    assert t.bindings[Slots(names, s)[1]] == Some(s);
  }

  /** In any store, a workspace found through a blob name belongs to a committed session
      that alone, among the live claims, has that name. */
  lemma BlobWorkspaceIsUnambiguous(names: Names, t: Tables, acts: seq<Action>, x: Session)
    requires Inv(names, t) && BlobWorkspace(names, Run(names, t, acts), x).Some?
    ensures var n := Run(names, t, acts);
            exists s :: && s in n.claims && n.claims[s].token.None? && names.blob(s) == names.blob(x)
                        && BlobWorkspace(names, n, x) == Some(n.claims[s].workspace)
                        && forall u :: u in n.claims && names.blob(u) == names.blob(x) ==> u == s
  {
    RunKeepsInv(names, t, acts);
    var n := Run(names, t, acts);
    var c := names.blob(x).value;
    var s := n.bindings[Slot(Blob, c)].value;
    assert Slot(Blob, c) in Slots(names, s);
    assert names.blob(s) == Some(c);
    forall u | u in n.claims && names.blob(u) == Some(c) ensures u == s {
      assert Slots(names, u)[1] == Slot(Blob, c);
    }
  }
}
