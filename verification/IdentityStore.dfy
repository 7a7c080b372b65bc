/** A write-through identity map: the file first, then memory, and out of service when it is
    not certain what the file holds.

    This is the managed store: every operation needs an attached lock, and whatever the
    operating system may answer is an argument of the operation.
 */
module IdentityStore {

  type Key = string
  type Meta = map<string, string>
  type Entries = map<Key, Meta>

  /** The store file. Entries that are not objects are dropped when it is read. */
  datatype File = Absent | Corrupt | Holds(entries: Entries)

  /** How a replacement of the file ends: done; refused or failed before the rename, with
      nothing changed; ownership found lost, with nothing changed; or renamed without the
      rename being known to last, so that the next reader may find either file. */
  datatype Outcome = Done | Failed | Lost | Uncertain(kept: bool)

  datatype ReadOutcome = ReadOk | ReadFailed | ReadLost

  datatype Store = Store(file: File, data: Entries, flat: map<Key, string>, attached: bool, stopped: bool, latched: bool)

  datatype Answer = Ok | Refused | Error

  function Contents(f: File): Entries { if f.Holds? then f.entries else map[] }

  predicate HasId(m: Meta) { "id" in m && m["id"] != "" }

  /** The map the authenticator sees: each key's id, for the entries that have one. */
  function Projection(data: Entries): map<Key, string> {
    map k | k in data && HasId(data[k]) :: data[k]["id"]
  }

  predicate Operating(s: Store) { !s.stopped && !s.latched && s.attached }

  // ---------------------------------------------------------------- operations as functions

  function Latched(s: Store): Store { s.(latched := true, flat := map[]) }

  /** The file after an attempt to replace it. */
  function FileAfter(f: File, entries: Entries, o: Outcome): File {
    match o
    case Done => Holds(entries)
    case Failed => f
    case Lost => f
    case Uncertain(kept) => if kept then Holds(entries) else f
  }

  /** Replace the stored map: file, then memory; out of service unless the end is certain. */
  function Replace(s: Store, entries: Entries, served: map<Key, string>, o: Outcome): (Store, Answer) {
    if !Operating(s) then (s, Refused)
    else
      var t := s.(file := FileAfter(s.file, entries, o));
      match o
      case Done => (t.(data := entries, flat := served), Ok)
      case Failed => (t, Error)
      case Lost => (Latched(t), Refused)
      case Uncertain(_) => (Latched(t), Refused)
  }

  /** The served map is patched at one key, not rebuilt. */
  function DoPut(s: Store, k: Key, v: Meta, o: Outcome): (Store, Answer) {
    Replace(s, s.data[k := v], if HasId(v) then s.flat[k := v["id"]] else s.flat - {k}, o)
  }

  function DoDelete(s: Store, k: Key, o: Outcome): (Store, Answer) { Replace(s, s.data - {k}, s.flat - {k}, o) }

  function DoSeed(s: Store, entries: Entries, o: Outcome): (Store, Answer) {
    Replace(s, entries, Projection(entries), o)
  }

  /** Patching a projection gives the projection of the patched map. */
  lemma PatchedProjection(data: Entries, k: Key, v: Meta)
    ensures Projection(data[k := v]) == if HasId(v) then Projection(data)[k := v["id"]] else Projection(data) - {k}
    ensures Projection(data - {k}) == Projection(data) - {k}
  {
  }

  function AttachTo(s: Store): Store { s.(attached := true, stopped := false, latched := false) }

  function Stopped(s: Store): Store { s.(attached := false, stopped := true, data := map[], flat := map[]) }

  function Loaded(s: Store, o: ReadOutcome): (Store, Answer) {
    if !Operating(s) then (s, Refused)
    else
      match o
      case ReadLost => (Latched(s), Refused)
      case ReadFailed => (s.(data := map[], flat := map[]), Error)
      case ReadOk => (s.(data := Contents(s.file), flat := Projection(Contents(s.file))), Ok)
  }

  // ---------------------------------------------------------------- the store

  class IdentityMap {
    var file: File
    var data: Entries
    var flat: map<Key, string>
    var attached: bool
    var stopped: bool
    var latched: bool

    constructor (file: File)
      ensures Now() == Store(file, map[], map[], false, true, false)
    {
      this.file := file;
      data, flat, attached, stopped, latched := map[], map[], false, true, false;
    }

    ghost function Now(): Store
      reads this
    {
      Store(file, data, flat, attached, stopped, latched)
    }

    method Attach()
      modifies this`attached, this`stopped, this`latched
      ensures Now() == AttachTo(old(Now()))
    {
      attached, stopped, latched := true, false, false;
    }

    method Stop()
      modifies this
      ensures Now() == Stopped(old(Now()))
    {
      stopped, attached := true, false;
      data, flat := map[], map[];
    }

    method Latch()
      modifies this`latched, this`flat
      ensures Now() == Latched(old(Now()))
    {
      latched, flat := true, map[];
    }

    /** Rebuild the served map in place, entry by entry. */
    method RebuildFlat()
      modifies this`flat
      ensures flat == Projection(data)
    {
      flat := map[];
      var left := data.Keys;
      while left != {}
        invariant left <= data.Keys
        invariant flat == map k | k in data && k !in left && HasId(data[k]) :: data[k]["id"]
        decreases |left|
      {
        var k :| k in left;
        left := left - {k};
        if HasId(data[k]) {
          flat := flat[k := data[k]["id"]];
        }
      }
    }

    method Load(o: ReadOutcome) returns (a: Answer)
      modifies this
      ensures (Now(), a) == Loaded(old(Now()), o)
    {
      if stopped || latched || !attached {
        return Refused;
      }
      match o {
        case ReadLost =>
          Latch();
          return Refused;
        case ReadFailed =>
          data := map[];
          RebuildFlat();
          return Error;
        case ReadOk =>
          data := if file.Holds? then file.entries else map[];
          RebuildFlat();
          return Ok;
      }
    }

    method WriteAtomic(entries: Entries, o: Outcome) returns (a: Answer)
      modifies this`file, this`latched, this`flat
      ensures a == (if o == Done then Ok else if o == Failed then Error else Refused)
      ensures Now() == (var t := old(Now()).(file := FileAfter(old(file), entries, o));
                        if a == Refused then Latched(t) else t)
    {
      match o {
        case Done => file := Holds(entries);
        case Failed =>
        case Lost => Latch();
        case Uncertain(kept) =>
          if kept { file := Holds(entries); }
          Latch();
      }
      a := if o == Done then Ok else if o == Failed then Error else Refused;
    }

    method Put(k: Key, v: Meta, o: Outcome) returns (a: Answer)
      modifies this
      ensures (Now(), a) == DoPut(old(Now()), k, v, o)
    {
      if stopped || latched || !attached {
        return Refused;
      }
      a := WriteAtomic(data[k := v], o);
      if a == Ok {
        data := data[k := v];
        flat := if HasId(v) then flat[k := v["id"]] else flat - {k};
      }
    }

    method Delete(k: Key, o: Outcome) returns (a: Answer)
      modifies this
      ensures (Now(), a) == DoDelete(old(Now()), k, o)
    {
      if stopped || latched || !attached {
        return Refused;
      }
      a := WriteAtomic(data - {k}, o);
      if a == Ok {
        data := data - {k};
        flat := flat - {k};
      }
    }

    method Seed(entries: Entries, o: Outcome) returns (a: Answer)
      modifies this
      ensures (Now(), a) == DoSeed(old(Now()), entries, o)
    {
      if stopped || latched || !attached {
        return Refused;
      }
      a := WriteAtomic(entries, o);
      if a == Ok {
        data := entries;
        RebuildFlat();
      }
    }
  }

  // ---------------------------------------------------------------- runs

  datatype Action =
    | Attaching | Stopping | Loading(ro: ReadOutcome) | Checking(owned: bool)
    | Putting(k: Key, v: Meta, o: Outcome) | Deleting(k: Key, o: Outcome) | Seeding(entries: Entries, o: Outcome)

  function Step(s: Store, a: Action): Store {
    match a
    case Attaching => AttachTo(s)
    case Stopping => Stopped(s)
    case Loading(ro) => Loaded(s, ro).0
    case Checking(owned) => if Operating(s) && !owned then Latched(s) else s
    case Putting(k, v, o) => DoPut(s, k, v, o).0
    case Deleting(k, o) => DoDelete(s, k, o).0
    case Seeding(entries, o) => DoSeed(s, entries, o).0
  }

  function Run(s: Store, acts: seq<Action>): Store
    decreases |acts|
  {
    if acts == [] then s else Run(Step(s, acts[0]), acts[1..])
  }

  /** Attaching only ever follows a stop, or a store that has nothing to remember. */
  predicate AttachIsClean(s: Store) { !s.latched || Projection(s.data) == map[] }

  predicate Orderly(s: Store, acts: seq<Action>)
    decreases |acts|
  {
    acts == [] || ((acts[0] == Attaching ==> AttachIsClean(s)) && Orderly(Step(s, acts[0]), acts[1..]))
  }

  /** What is served is what is stored, or nothing. */
  predicate Inv(s: Store) {
    if s.latched then s.flat == map[] else s.flat == Projection(s.data)
  }

  /** Every step but an attach keeps the served map right; an attach does so exactly when
      the store was not latched with identities still in memory. */
  lemma StepKeepsInvIff(s: Store, a: Action)
    requires Inv(s)
    ensures a != Attaching ==> Inv(Step(s, a))
    ensures Inv(Step(s, Attaching)) <==> AttachIsClean(s)
  {
    assert Projection(map[]) == map[];
    match a
    case Putting(k, v, o) => PatchedProjection(s.data, k, v);
    case Deleting(k, o) => PatchedProjection(s.data, k, map[]);
    case _ =>
  }

  /** In every orderly run the served map is the projection of the stored map whenever the
      store is not latched, and empty when it is. */
  lemma {:induction false} ServedIsProjection(s: Store, acts: seq<Action>)
    requires Inv(s) && Orderly(s, acts)
    ensures Inv(Run(s, acts))
    decreases |acts|
  {
    if acts == [] {
    } else {
      StepKeepsInvIff(s, acts[0]);
      ServedIsProjection(Step(s, acts[0]), acts[1..]);
    }
  }

  /** Attaching again without a stop in between serves less than is stored. */
  lemma AttachWithoutStopForgets(k: Key)
    ensures var s := Run(Store(Absent, map[], map[], false, true, false),
                         [Attaching, Putting(k, map["id" := "alice"], Done), Checking(false), Attaching]);
            Operating(s) && k in Projection(s.data) && k !in s.flat
  {
    var s0 := Store(Absent, map[], map[], false, true, false);
    var a0, a1, a2, a3: Action := Attaching, Putting(k, map["id" := "alice"], Done), Checking(false), Attaching;
    var s1 := Step(s0, a0);
    var s2 := Step(s1, a1);
    var s3 := Step(s2, a2);
    var s4 := Step(s3, a3);
    assert s2.data == map[k := map["id" := "alice"]];
    calc {
      Run(s0, [a0, a1, a2, a3]);
      { assert [a0, a1, a2, a3][1..] == [a1, a2, a3]; }
      Run(s1, [a1, a2, a3]);
      { assert [a1, a2, a3][1..] == [a2, a3]; }
      Run(s2, [a2, a3]);
      { assert [a2, a3][1..] == [a3]; }
      Run(s3, [a3]);
      { assert [a3][1..] == []; }
      Run(s4, []);
      s4;
    }
  }

  predicate Agrees(s: Store) { s.data == Contents(s.file) }

  predicate Mutates(a: Action) { a.Putting? || a.Deleting? || a.Seeding? }

  /** A put, delete or seed, on the entries alone. */
  function Change(entries: Entries, a: Action): Entries
    requires Mutates(a)
  {
    match a
    case Putting(k, v, _) => entries[k := v]
    case Deleting(k, _) => entries - {k}
    case Seeding(all, _) => all
  }

  /** A put, delete or seed on a store whose file and memory agree changes both, or neither,
      or takes the store out of service with nothing served. */
  lemma BothOrNeitherOrLatched(s: Store, a: Action)
    requires Inv(s) && Agrees(s) && Operating(s) && Mutates(a)
    ensures var t := Step(s, a);
            || (Operating(t) && Agrees(t) && t.data == Change(s.data, a) && t.flat == Projection(t.data))
            || t == s
            || (t.latched && t.flat == map[] && (Contents(t.file) == s.data || Contents(t.file) == Change(s.data, a)))
  {
    StepKeepsInvIff(s, a);
  }

  /** Actions that leave the store attached, as between two restarts. */
  predicate InService(a: Action) { !a.Attaching? && !a.Stopping? && a != Loading(ReadFailed) }

  /** From agreement, after any run in service, whatever the operating system answered: file
      and memory agree and the projection is served, or the store is latched and serves
      nothing. */
  lemma {:induction false} AgreesOrLatched(s: Store, acts: seq<Action>)
    requires Inv(s) && (s.latched || (Operating(s) && Agrees(s)))
    requires forall i :: 0 <= i < |acts| ==> InService(acts[i])
    ensures var t := Run(s, acts);
            Inv(t) && (t.latched || (Operating(t) && Agrees(t)))
    decreases |acts|
  {
    if acts == [] {
    } else {
      StepKeepsInvIff(s, acts[0]);
      AgreesOrLatched(Step(s, acts[0]), acts[1..]);
    }
  }

  /** A latched store changes nothing, file included, until it is stopped or attached anew. */
  lemma {:induction false} LatchedStaysPut(s: Store, acts: seq<Action>)
    requires s.latched && forall i :: 0 <= i < |acts| ==> !acts[i].Attaching? && !acts[i].Stopping?
    ensures Run(s, acts) == s || Run(s, acts) == Latched(s)
    decreases |acts|
  {
    if acts == [] {
    } else {
      LatchedStaysPut(Step(s, acts[0]), acts[1..]);
    }
  }

  // ---------------------------------------------------------------- restarts

  predicate Acknowledged(s: Store, a: Action) { Operating(s) && Mutates(a) && a.o == Done }

  /** The changes that were answered Ok, replayed in order. */
  function Replayed(entries: Entries, s: Store, acts: seq<Action>): Entries
    decreases |acts|
  {
    if acts == [] then entries
    else Replayed(if Acknowledged(s, acts[0]) then Change(entries, acts[0]) else entries, Step(s, acts[0]), acts[1..])
  }

  /** The file holds these entries, or these and one change whose end was not certain. */
  ghost predicate HoldsUpToOne(f: File, entries: Entries, acts: seq<Action>) {
    || Contents(f) == entries
    || exists i :: 0 <= i < |acts| && Mutates(acts[i]) && acts[i].o.Uncertain? && Contents(f) == Change(entries, acts[i])
  }

  lemma {:induction false} NothingAnsweredLatched(s: Store, acts: seq<Action>)
    requires s.latched && forall i :: 0 <= i < |acts| ==> InService(acts[i])
    ensures Replayed(s.data, s, acts) == s.data
    decreases |acts|
  {
    if acts == [] {
    } else {
      NothingAnsweredLatched(Step(s, acts[0]), acts[1..]);
    }
  }

  lemma StepAnswers(s: Store, a: Action)
    requires Inv(s) && Operating(s) && Agrees(s) && InService(a)
    ensures var t := Step(s, a);
            && t.data == (if Acknowledged(s, a) then Change(s.data, a) else s.data)
            && (if t.latched then Contents(t.file) == t.data || (Mutates(a) && a.o.Uncertain? && Contents(t.file) == Change(t.data, a))
                else Inv(t) && Operating(t) && Agrees(t))
  {
    StepKeepsInvIff(s, a);
  }

  /** In service, memory is what was acknowledged, and the file is at most one change ahead. */
  lemma {:induction false} FileHoldsAcknowledged(s: Store, acts: seq<Action>)
    requires Inv(s) && Operating(s) && Agrees(s)
    requires forall i :: 0 <= i < |acts| ==> InService(acts[i])
    ensures Run(s, acts).data == Replayed(s.data, s, acts)
    ensures HoldsUpToOne(Run(s, acts).file, Run(s, acts).data, acts)
    decreases |acts|
  {
    if acts == [] {
    } else {
      var t := Step(s, acts[0]);
      StepAnswers(s, acts[0]);
      if t.latched {
        LatchedStaysPut(t, acts[1..]);
        NothingAnsweredLatched(t, acts[1..]);
      } else {
        FileHoldsAcknowledged(t, acts[1..]);
        assert forall i :: 0 <= i < |acts[1..]| ==> acts[1..][i] == acts[i + 1];
      }
    }
  }

  /** Stop, attach and a successful load. */
  function Restarted(s: Store): Store { Step(Step(Step(s, Stopping), Attaching), Loading(ReadOk)) }

  /** After any run in service and a restart the store is in agreement again, and serves
      what was acknowledged, with at most one change more, one whose end was not certain. */
  lemma RestartServesAcknowledged(s: Store, acts: seq<Action>)
    requires Inv(s) && Operating(s) && Agrees(s)
    requires forall i :: 0 <= i < |acts| ==> InService(acts[i])
    ensures var t := Restarted(Run(s, acts));
            && Inv(t) && Operating(t) && Agrees(t) && t.flat == Projection(t.data)
            && HoldsUpToOne(t.file, Replayed(s.data, s, acts), acts)
            && (!Run(s, acts).latched ==> t.data == Replayed(s.data, s, acts))
  {
    FileHoldsAcknowledged(s, acts);
    AgreesOrLatched(s, acts);
  }
}
