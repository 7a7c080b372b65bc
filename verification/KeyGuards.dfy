/** Reference-counted per-key guards of the queue, as steps of concurrent coroutines.

    A coroutine looks a guard up and registers itself in one step. It then takes the
    guard's admission, its worker thread takes the guard's file lock, and on the way out
    it drops its reference. Guards are objects apart from the map that finds them, so a
    coroutine could hold an object that the map no longer names.
 */
module KeyGuards {

  type Key = string
  type Gid = nat
  type Cid = nat

  /** Admission and file lock name the coroutine that holds them. */
  datatype Owner = Free | By(c: Cid)

  datatype Guard = Guard(waiters: nat, generation: nat, deferred: bool, admission: Owner, fileLock: Owner)

  datatype Op = Append | DeadLetter | Delete | Migrate(source: Key) | Wait

  datatype Phase = Entered | Admitted | Locked | Settled | Done

  /** `holds` are the guard objects a coroutine references, by key. A waiter remembers
      the generation it saw, and `seen`, how many appends had finished by then. */
  datatype Coroutine = Coroutine(op: Op, holds: map<Key, Gid>, phase: Phase, snapshot: int, seen: nat)

  /** `notified` counts, per key, the appends that have finished in the whole history. */
  datatype World = World(guards: map<Key, Gid>, objects: map<Gid, Guard>, nextId: nat,
                         coroutines: map<Cid, Coroutine>, notified: map<Key, nat>)

  datatype Action =
    | Enter(c: Cid, k: Key, op: Op) | EnterMigrate(c: Cid, k: Key, folded: Key)
    | Admit(c: Cid, k: Key) | Lock(c: Cid, k: Key) | Unlock(c: Cid, k: Key, removed: bool)
    | ClearBeforeRead(c: Cid, k: Key) | Notify(c: Cid, k: Key)
    | Exit(c: Cid, k: Key)

  const NEW := Guard(0, 0, false, Free, Free)

  function Notified(w: World, k: Key): nat { if k in w.notified then w.notified[k] else 0 }

  /** The guard object a coroutine uses for `k`, if it references one. */
  predicate Holds(w: World, c: Cid, k: Key) {
    c in w.coroutines && k in w.coroutines[c].holds && w.coroutines[c].holds[k] in w.objects
  }

  function Held(w: World, c: Cid, k: Key): Guard
    requires Holds(w, c, k)
  {
    w.objects[w.coroutines[c].holds[k]]
  }

  function SetGuard(w: World, g: Gid, guard: Guard): World { w.(objects := w.objects[g := guard]) }

  /** `_guard` on entry: get or create, and count the reference, with no await between. */
  function Register(w: World, c: Cid, k: Key): World
    requires c in w.coroutines
  {
    var found := k in w.guards && w.guards[k] in w.objects;
    var g := if found then w.guards[k] else w.nextId;
    var guard := if found then w.objects[g] else NEW;
    w.(guards := w.guards[k := g],
       objects := w.objects[g := guard.(waiters := guard.waiters + 1)],
       nextId := if found then w.nextId else w.nextId + 1,
       coroutines := w.coroutines[c := w.coroutines[c].(holds := w.coroutines[c].holds[k := g])])
  }

  function Start(w: World, c: Cid, op: Op): World {
    w.(coroutines := w.coroutines[c := Coroutine(op, map[], Entered, -1, 0)])
  }

  function ReleaseOwned(o: Owner, c: Cid): Owner { if o == By(c) then Free else o }

  /** Drop one reference: release admission and count down; the last reference to a guard
      marked for removal, or a migration that is its only holder, takes it out of the map. */
  function Drop(w: World, c: Cid, k: Key, migrating: bool): World
    requires Holds(w, c, k)
  {
    var g := w.coroutines[c].holds[k];
    var guard := w.objects[g];
    var left := if guard.waiters == 0 then 0 else guard.waiters - 1;
    var gone := left == 0 && (guard.deferred || migrating) && k in w.guards && w.guards[k] == g;
    w.(guards := if gone then w.guards - {k} else w.guards,
       objects := w.objects[g := guard.(waiters := left, admission := ReleaseOwned(guard.admission, c))],
       coroutines := w.coroutines[c := w.coroutines[c].(holds := w.coroutines[c].holds - {k})])
  }

  function SetPhase(w: World, c: Cid, phase: Phase): World
    requires c in w.coroutines
  {
    w.(coroutines := w.coroutines[c := w.coroutines[c].(phase := phase)])
  }

  predicate OneKey(w: World, c: Cid) { c in w.coroutines && !w.coroutines[c].op.Migrate? && !w.coroutines[c].op.Wait? }

  function AdmitStep(w: World, c: Cid, k: Key): World {
    if !Holds(w, c, k) || w.coroutines[c].op.Wait? || Held(w, c, k).admission != Free || w.coroutines[c].phase != Entered then w
    else
      var guard := Held(w, c, k).(admission := By(c));
      var v := SetGuard(w, w.coroutines[c].holds[k], if w.coroutines[c].op.Append? then guard.(deferred := false) else guard);
      if OneKey(w, c) then SetPhase(v, c, Admitted) else v
  }

  function LockStep(w: World, c: Cid, k: Key): World {
    if !Holds(w, c, k) || Held(w, c, k).admission != By(c) || Held(w, c, k).fileLock != Free
       || (OneKey(w, c) && w.coroutines[c].phase != Admitted) then w
    else
      var v := SetGuard(w, w.coroutines[c].holds[k], Held(w, c, k).(fileLock := By(c)));
      if OneKey(w, c) then SetPhase(v, c, Locked) else v
  }

  function UnlockStep(w: World, c: Cid, k: Key, removed: bool): World {
    if !Holds(w, c, k) || Held(w, c, k).fileLock != By(c) then w
    else
      var guard := Held(w, c, k).(fileLock := Free);
      var v := SetGuard(w, w.coroutines[c].holds[k],
                        if w.coroutines[c].op.Delete? && removed then guard.(deferred := true) else guard);
      if OneKey(w, c) then SetPhase(v, c, Settled) else v
  }

  function ClearStep(w: World, c: Cid, k: Key): World {
    if !Holds(w, c, k) || !w.coroutines[c].op.Wait? then w
    else w.(coroutines := w.coroutines[c := w.coroutines[c].(snapshot := Held(w, c, k).generation, seen := Notified(w, k))])
  }

  /** The `finally` of an append: it runs once the write has settled, whatever its result. */
  function NotifyStep(w: World, c: Cid, k: Key): World {
    if !Holds(w, c, k) || !w.coroutines[c].op.Append? || w.coroutines[c].phase != Settled then w
    else
      var v := SetGuard(w, w.coroutines[c].holds[k], Held(w, c, k).(generation := Held(w, c, k).generation + 1));
      SetPhase(v, c, Done).(notified := w.notified[k := Notified(w, k) + 1])
  }

  /** A coroutine leaves before admission, when cancelled, or after its work has settled;
      an append only after its notification. */
  function ExitStep(w: World, c: Cid, k: Key): World {
    if !Holds(w, c, k) || Held(w, c, k).fileLock == By(c) then w
    else
      var co := w.coroutines[c];
      if OneKey(w, c) && !(co.phase == Entered || co.phase == Done || (co.phase == Settled && !co.op.Append?)) then w
      else Drop(w, c, k, co.op == Migrate(k))
  }

  function Step(w: World, a: Action): World {
    match a
    case Enter(c, k, op) =>
      if c !in w.coroutines && !op.Migrate? then Register(Start(w, c, op), c, k) else w
    case EnterMigrate(c, k, folded) =>
      if c !in w.coroutines && k != folded then Register(Register(Start(w, c, Migrate(k)), c, k), c, folded) else w
    case Admit(c, k) => AdmitStep(w, c, k)
    case Lock(c, k) => LockStep(w, c, k)
    case Unlock(c, k, removed) => UnlockStep(w, c, k, removed)
    case ClearBeforeRead(c, k) => ClearStep(w, c, k)
    case Notify(c, k) => NotifyStep(w, c, k)
    case Exit(c, k) => ExitStep(w, c, k)
  }

  function Run(w: World, actions: seq<Action>): World
    decreases |actions|
  {
    if actions == [] then w else Run(Step(w, actions[0]), actions[1..])
  }

  const EMPTY := World(map[], map[], 0, map[], map[])

  // ---------------------------------------------------------------- invariant

  ghost function Holders(w: World, k: Key): set<Cid> {
    set c | c in w.coroutines && k in w.coroutines[c].holds
  }

  /** Every reference to a key is to the object the map names, and all are counted. */
  ghost predicate KeyOk(w: World, k: Key) {
    && (Holders(w, k) != {} ==> k in w.guards)
    && (k in w.guards ==>
          && w.guards[k] in w.objects && w.guards[k] < w.nextId
          && w.objects[w.guards[k]].waiters == |Holders(w, k)|
          && (forall c | c in Holders(w, k) :: w.coroutines[c].holds[k] == w.guards[k])
          && (forall c :: w.objects[w.guards[k]].fileLock == By(c) ==> c in Holders(w, k)))
  }

  /** A waiter's generation gap is the number of appends finished since it cleared. */
  ghost predicate WaiterOk(w: World, c: Cid, k: Key)
    requires c in w.coroutines && k in w.coroutines[c].holds
  {
    w.coroutines[c].op.Wait? && w.coroutines[c].snapshot >= 0 && Holds(w, c, k) ==>
      Held(w, c, k).generation - w.coroutines[c].snapshot == Notified(w, k) - w.coroutines[c].seen
  }

  /** A waiter references one key only. */
  ghost predicate Single(w: World, c: Cid)
    requires c in w.coroutines
  {
    w.coroutines[c].op.Wait? ==> forall j, k | j in w.coroutines[c].holds && k in w.coroutines[c].holds :: j == k
  }

  ghost predicate Inv(w: World) {
    && (forall k :: KeyOk(w, k))
    && (forall j, k | j in w.guards && k in w.guards && w.guards[j] == w.guards[k] :: j == k)
    && (forall g | g in w.objects :: g < w.nextId)
    && (forall c | c in w.coroutines :: Single(w, c))
    && (forall c, k | c in w.coroutines && k in w.coroutines[c].holds :: WaiterOk(w, c, k))
  }

  // ---------------------------------------------------------------- preservation

  /** Whoever holds a guard for `k` holds the one the map names. */
  lemma HoldsCurrent(w: World, c: Cid, k: Key)
    requires Inv(w) && c in w.coroutines && k in w.coroutines[c].holds
    ensures k in w.guards && w.guards[k] in w.objects && w.coroutines[c].holds[k] == w.guards[k]
  {
    assert KeyOk(w, k);
    assert c in Holders(w, k);
  }

  /** A step that changes the state of the guard object of `k`, not who holds it. */
  lemma GuardChange(w: World, v: World, c: Cid, k: Key)
    requires Inv(w) && c in w.coroutines && k in w.coroutines[c].holds
    requires k in w.guards && w.guards[k] in w.objects && w.guards[k] in v.objects
    requires v.guards == w.guards && v.nextId == w.nextId && v.coroutines.Keys == w.coroutines.Keys
    requires forall d | d in w.coroutines :: v.coroutines[d].holds == w.coroutines[d].holds && v.coroutines[d].op == w.coroutines[d].op
    requires v.objects == w.objects[w.guards[k] := v.objects[w.guards[k]]]
    requires v.objects[w.guards[k]].waiters == w.objects[w.guards[k]].waiters
    requires v.objects[w.guards[k]].fileLock in {Free, By(c), w.objects[w.guards[k]].fileLock}
    requires forall d, j | d in v.coroutines && j in v.coroutines[d].holds :: WaiterOk(v, d, j)
    ensures Inv(v)
  {
    forall j ensures KeyOk(v, j) {
      assert KeyOk(w, j) && KeyOk(w, k);
      assert Holders(v, j) == Holders(w, j);
      assert c in Holders(w, k);
    }
    forall d | d in v.coroutines ensures Single(v, d) { assert Single(w, d); }
  }

  lemma WaitersUnaffected(w: World, v: World)
    requires Inv(w) && v.notified == w.notified && v.coroutines.Keys == w.coroutines.Keys && v.objects.Keys == w.objects.Keys
    requires forall d | d in w.coroutines :: v.coroutines[d] == w.coroutines[d].(phase := v.coroutines[d].phase)
    requires forall g | g in w.objects :: v.objects[g].generation == w.objects[g].generation
    ensures forall d, j | d in v.coroutines && j in v.coroutines[d].holds :: WaiterOk(v, d, j)
  {
    forall d, j | d in v.coroutines && j in v.coroutines[d].holds ensures WaiterOk(v, d, j) {
      assert WaiterOk(w, d, j);
    }
  }

  lemma AdmitKeepsInv(w: World, c: Cid, k: Key)
    requires Inv(w)
    ensures Inv(AdmitStep(w, c, k))
  {
    var v := AdmitStep(w, c, k);
    if v != w {
      HoldsCurrent(w, c, k);
      WaitersUnaffected(w, v);
      GuardChange(w, v, c, k);
    }
  }

  lemma LockKeepsInv(w: World, c: Cid, k: Key)
    requires Inv(w)
    ensures Inv(LockStep(w, c, k))
  {
    var v := LockStep(w, c, k);
    if v != w {
      HoldsCurrent(w, c, k);
      WaitersUnaffected(w, v);
      GuardChange(w, v, c, k);
    }
  }

  lemma UnlockKeepsInv(w: World, c: Cid, k: Key, removed: bool)
    requires Inv(w)
    ensures Inv(UnlockStep(w, c, k, removed))
  {
    var v := UnlockStep(w, c, k, removed);
    if v != w {
      HoldsCurrent(w, c, k);
      WaitersUnaffected(w, v);
      GuardChange(w, v, c, k);
    }
  }

  lemma ClearKeepsInv(w: World, c: Cid, k: Key)
    requires Inv(w)
    ensures Inv(ClearStep(w, c, k))
  {
    var v := ClearStep(w, c, k);
    if v != w {
      HoldsCurrent(w, c, k);
      assert Single(w, c);
      forall d, j | d in v.coroutines && j in v.coroutines[d].holds ensures WaiterOk(v, d, j) {
        assert WaiterOk(w, d, j);
      }
      assert v.objects == w.objects;
      GuardChange(w, v, c, k);
    }
  }

  lemma NotifyKeepsInv(w: World, c: Cid, k: Key)
    requires Inv(w)
    ensures Inv(NotifyStep(w, c, k))
  {
    var v := NotifyStep(w, c, k);
    if v != w {
      HoldsCurrent(w, c, k);
      forall d, j | d in v.coroutines && j in v.coroutines[d].holds ensures WaiterOk(v, d, j) {
        HoldsCurrent(w, d, j);
        assert WaiterOk(w, d, j);
      }
      GuardChange(w, v, c, k);
    }
  }

  lemma RegisterCounts(w: World, c: Cid, k: Key)
    requires KeyOk(w, k) && c in w.coroutines && k !in w.coroutines[c].holds
    ensures KeyOk(Register(w, c, k), k)
  {
    var v := Register(w, c, k);
    assert Holders(v, k) == Holders(w, k) + {c} && c !in Holders(w, k);
    assert k !in w.guards ==> Holders(w, k) == {};
    forall d | d in Holders(v, k) ensures v.coroutines[d].holds[k] == v.guards[k] {
      if d != c { assert d in Holders(w, k); }
    }
  }

  lemma RegisterElsewhere(w: World, c: Cid, k: Key, j: Key)
    requires KeyOk(w, k) && KeyOk(w, j) && c in w.coroutines && j != k
    requires k in w.guards && j in w.guards ==> w.guards[k] != w.guards[j]
    ensures KeyOk(Register(w, c, k), j)
  {
    var v := Register(w, c, k);
    assert Holders(v, j) == Holders(w, j);
    if j in w.guards { assert v.objects[w.guards[j]] == w.objects[w.guards[j]]; }
  }

  lemma RegisterKeepsInv(w: World, c: Cid, k: Key)
    requires Inv(w) && c in w.coroutines && k !in w.coroutines[c].holds
    requires w.coroutines[c].op.Wait? ==> w.coroutines[c].holds == map[]
    requires w.coroutines[c].snapshot == -1
    ensures Inv(Register(w, c, k))
  {
    var v := Register(w, c, k);
    forall j ensures KeyOk(v, j) {
      assert KeyOk(w, j) && KeyOk(w, k);
      if j == k { RegisterCounts(w, c, k); } else { RegisterElsewhere(w, c, k, j); }
    }
    forall i, j | i in v.guards && j in v.guards && v.guards[i] == v.guards[j] ensures i == j {
      assert KeyOk(w, i) && KeyOk(w, j);
    }
    forall d | d in v.coroutines ensures Single(v, d) { assert Single(w, d); }
    forall d, j | d in v.coroutines && j in v.coroutines[d].holds ensures WaiterOk(v, d, j) {
      if d != c {
        HoldsCurrent(w, d, j);
        assert WaiterOk(w, d, j) && KeyOk(w, j);
      }
    }
  }

  lemma DropKeepsKeys(w: World, c: Cid, k: Key, migrating: bool, j: Key)
    requires Inv(w) && Holds(w, c, k) && Held(w, c, k).fileLock != By(c)
    ensures KeyOk(Drop(w, c, k, migrating), j)
  {
    var v := Drop(w, c, k, migrating);
    HoldsCurrent(w, c, k);
    assert KeyOk(w, j) && KeyOk(w, k);
    if j == k {
      assert c in Holders(w, k);
      assert Holders(v, k) == Holders(w, k) - {c};
    } else {
      assert Holders(v, j) == Holders(w, j);
    }
  }

  lemma DropKeepsInv(w: World, c: Cid, k: Key, migrating: bool)
    requires Inv(w) && Holds(w, c, k) && Held(w, c, k).fileLock != By(c)
    ensures Inv(Drop(w, c, k, migrating))
  {
    var v := Drop(w, c, k, migrating);
    HoldsCurrent(w, c, k);
    forall j ensures KeyOk(v, j) { DropKeepsKeys(w, c, k, migrating, j); }
    forall d | d in v.coroutines ensures Single(v, d) { assert Single(w, d); }
    forall d, j | d in v.coroutines && j in v.coroutines[d].holds ensures WaiterOk(v, d, j) {
      HoldsCurrent(w, d, j);
      assert WaiterOk(w, d, j);
    }
  }

  lemma StartKeepsInv(w: World, c: Cid, op: Op)
    requires Inv(w) && c !in w.coroutines
    ensures Inv(Start(w, c, op))
  {
    var v := Start(w, c, op);
    forall j ensures KeyOk(v, j) {
      assert KeyOk(w, j);
      assert Holders(v, j) == Holders(w, j);
    }
    forall d | d in v.coroutines ensures Single(v, d) { if d != c { assert Single(w, d); } }
    forall d, j | d in v.coroutines && j in v.coroutines[d].holds ensures WaiterOk(v, d, j) { assert WaiterOk(w, d, j); }
  }

  lemma StepKeepsInv(w: World, a: Action)
    requires Inv(w)
    ensures Inv(Step(w, a))
  {
    match a
    case Enter(c, k, op) =>
      if c !in w.coroutines && !op.Migrate? {
        StartKeepsInv(w, c, op);
        RegisterKeepsInv(Start(w, c, op), c, k);
      }
    case EnterMigrate(c, k, folded) =>
      if c !in w.coroutines && k != folded {
        var v := Start(w, c, Migrate(k));
        StartKeepsInv(w, c, Migrate(k));
        RegisterKeepsInv(v, c, k);
        RegisterKeepsInv(Register(v, c, k), c, folded);
      }
    case ClearBeforeRead(c, k) => ClearKeepsInv(w, c, k);
    case Notify(c, k) => NotifyKeepsInv(w, c, k);
    case Exit(c, k) => if ExitStep(w, c, k) != w { DropKeepsInv(w, c, k, w.coroutines[c].op == Migrate(k)); }
    case Admit(c, k) => AdmitKeepsInv(w, c, k);
    case Lock(c, k) => LockKeepsInv(w, c, k);
    case Unlock(c, k, removed) => UnlockKeepsInv(w, c, k, removed);
  }

  lemma {:induction false} RunKeepsInv(w: World, actions: seq<Action>)
    requires Inv(w)
    ensures Inv(Run(w, actions))
    decreases |actions|
  {
    if actions == [] {
    } else {
      StepKeepsInv(w, actions[0]);
      RunKeepsInv(Step(w, actions[0]), actions[1..]);
    }
  }

  // ---------------------------------------------------------------- theorems

  /** The coroutine's worker thread is inside the file lock of `k`. */
  ghost predicate InFileSection(w: World, c: Cid, k: Key) { Holds(w, c, k) && Held(w, c, k).fileLock == By(c) }

  /** In every interleaving all holders of a key's guard hold the same object, the one the
      map names, so the writes, deletions and renames of one key never overlap. */
  lemma OneGuardPerKey(actions: seq<Action>, k: Key, c: Cid, d: Cid)
    requires var w := Run(EMPTY, actions);
             c in Holders(w, k) && d in Holders(w, k)
    ensures var w := Run(EMPTY, actions);
            && k in w.guards && w.coroutines[c].holds[k] == w.guards[k] == w.coroutines[d].holds[k]
            && (InFileSection(w, c, k) && InFileSection(w, d, k) ==> c == d)
  {
    RunKeepsInv(EMPTY, actions);
    HoldsCurrent(Run(EMPTY, actions), c, k);
    HoldsCurrent(Run(EMPTY, actions), d, k);
  }

  /** `wait_for_change` compares generations: it answers true exactly when an append of
      the waiter's key has finished since the waiter's `clear_before_read`. */
  lemma NoLostAppend(actions: seq<Action>, c: Cid, k: Key)
    requires var w := Run(EMPTY, actions);
             c in Holders(w, k) && w.coroutines[c].op.Wait? && w.coroutines[c].snapshot >= 0
    ensures var w := Run(EMPTY, actions);
            Holds(w, c, k) && (Held(w, c, k).generation != w.coroutines[c].snapshot <==> Notified(w, k) != w.coroutines[c].seen)
  {
    RunKeepsInv(EMPTY, actions);
    HoldsCurrent(Run(EMPTY, actions), c, k);
    assert WaiterOk(Run(EMPTY, actions), c, k);
  }
}
