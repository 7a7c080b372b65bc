/** First-in first-out shared and exclusive leases on the blob root.

    Threads enter and leave under one condition variable, so a run is a sequence of
    arrivals, admission attempts, cancellations and releases, in any order. Tokens are
    numbered in order of arrival.
 */
module BlobLease {

  type Token = nat

  datatype Entry = Entry(token: Token, exclusive: bool)

  // ---------------------------------------------------------------- the coordinator

  function WithoutToken(queue: seq<Entry>, t: Token): seq<Entry> {
    if queue == [] then []
    else if queue[0].token == t then queue[1..]
    else [queue[0]] + WithoutToken(queue[1..], t)
  }

  /** The entries that stand before the token. */
  function Before(queue: seq<Entry>, t: Token): (r: seq<Entry>)
    ensures r <= queue
  {
    if queue == [] || queue[0].token == t then [] else [queue[0]] + Before(queue[1..], t)
  }

  predicate HasWriter(queue: seq<Entry>) { exists i :: 0 <= i < |queue| && queue[i].exclusive }

  lemma HasWriterHead(queue: seq<Entry>)
    requires queue != []
    ensures HasWriter(queue) == (queue[0].exclusive || HasWriter(queue[1..]))
  {
    if HasWriter(queue[1..]) {
      var i :| 0 <= i < |queue[1..]| && queue[1..][i].exclusive;
      assert queue[i + 1].exclusive;
    }
  }

  /** A reader waits for queued writers before it and for the active writer. A writer waits
      for everyone before it and for every active lease. */
  predicate Admissible(queue: seq<Entry>, readers: nat, writer: bool, e: Entry) {
    && !writer && !HasWriter(Before(queue, e.token))
    && (e.exclusive ==> queue != [] && queue[0].token == e.token && readers == 0)
  }

  class Coordinator {
    var queue: seq<Entry>
    var readers: nat
    var writer: bool

    constructor ()
      ensures queue == [] && readers == 0 && !writer
    {
      queue, readers, writer := [], 0, false;
    }

    method Arrive(e: Entry)
      modifies this`queue
      ensures queue == old(queue) + [e]
    {
      queue := queue + [e];
    }

    method PrecedingWriter(t: Token) returns (found: bool)
      ensures found == HasWriter(Before(queue, t))
    {
      found := false;
      var i := 0;
      while i < |queue| && queue[i].token != t
        invariant i <= |queue|
        invariant HasWriter(Before(queue, t)) == (found || HasWriter(Before(queue[i..], t)))
      {
        HasWriterHead(Before(queue[i..], t));
        found := found || queue[i].exclusive;
        i := i + 1;
      }
    }

    /** One look at the condition: admit the entry exactly when it is admissible. */
    method TryAdmit(e: Entry) returns (admitted: bool)
      requires e in queue
      modifies this
      ensures admitted <==> Admissible(old(queue), old(readers), old(writer), e)
      ensures !admitted ==> queue == old(queue) && readers == old(readers) && writer == old(writer)
      ensures admitted ==> queue == WithoutToken(old(queue), e.token) && writer == e.exclusive
      ensures admitted ==> readers == old(readers) + if e.exclusive then 0 else 1
    {
      var precedingWriter := PrecedingWriter(e.token);
      admitted := !writer && !precedingWriter && (!e.exclusive || (queue[0].token == e.token && readers == 0));
      if admitted {
        queue := WithoutToken(queue, e.token);
        if e.exclusive {
          writer := true;
        } else {
          readers := readers + 1;
        }
      }
    }

    method Cancel(e: Entry)
      modifies this`queue
      ensures queue == WithoutToken(old(queue), e.token)
    {
      queue := WithoutToken(queue, e.token);
    }

    /** A release shuts nobody out, and the last one lets the head of the queue in. */
    method Release(e: Entry)
      requires !e.exclusive ==> readers > 0
      modifies this`readers, this`writer
      ensures if e.exclusive then !writer && readers == old(readers)
              else readers == old(readers) - 1 && writer == old(writer)
      ensures forall q :: old(Admissible(queue, readers, writer, q)) ==> Admissible(queue, readers, writer, q)
      ensures readers == 0 && !writer && queue != [] ==> Admissible(queue, readers, writer, queue[0])
    {
      if e.exclusive {
        writer := false;
      } else {
        readers := readers - 1;
      }
    }
  }

  // ---------------------------------------------------------------- runs

  /** The coordinator's fields, with the leases that are out (`held`, token to exclusive)
      and the number of arrivals so far. */
  datatype World = World(queue: seq<Entry>, readers: nat, writer: bool, held: map<Token, bool>, arrivals: nat)

  datatype Action = Arrive(exclusive: bool) | Attempt(t: Token) | Cancel(t: Token) | Release(t: Token)

  const INIT := World([], 0, false, map[], 0)

  function Find(queue: seq<Entry>, t: Token): (r: int)
    ensures -1 <= r < |queue| && (r >= 0 ==> queue[r].token == t)
    ensures r == -1 ==> forall i :: 0 <= i < |queue| ==> queue[i].token != t
  {
    if queue == [] then -1
    else if queue[0].token == t then 0
    else
      var r := Find(queue[1..], t);
      if r == -1 then -1 else r + 1
  }

  function Step(w: World, a: Action): World {
    match a
    case Arrive(exclusive) =>
      w.(queue := w.queue + [Entry(w.arrivals, exclusive)], arrivals := w.arrivals + 1)
    case Attempt(t) =>
      var i := Find(w.queue, t);
      if i >= 0 && Admissible(w.queue, w.readers, w.writer, w.queue[i]) then
        var e := w.queue[i];
        w.(queue := WithoutToken(w.queue, t), held := w.held[t := e.exclusive],
           writer := w.writer || e.exclusive, readers := w.readers + if e.exclusive then 0 else 1)
      else w
    case Cancel(t) => w.(queue := WithoutToken(w.queue, t))
    case Release(t) =>
      if t !in w.held then w
      else if w.held[t] then w.(held := w.held - {t}, writer := false)
      else w.(held := w.held - {t}, readers := if w.readers == 0 then 0 else w.readers - 1)
  }

  function Run(w: World, acts: seq<Action>): World
    decreases |acts|
  {
    if acts == [] then w else Run(Step(w, acts[0]), acts[1..])
  }

  // ---------------------------------------------------------------- the invariant

  function HeldReaders(held: map<Token, bool>): set<Token> { set t | t in held && !held[t] }

  predicate Ascending(queue: seq<Entry>) {
    forall i, j :: 0 <= i < j < |queue| ==> queue[i].token < queue[j].token
  }

  /** The counters say what is held. */
  predicate Counted(w: World) {
    && w.readers == |HeldReaders(w.held)|
    && (w.writer <==> exists t :: t in w.held && w.held[t])
  }

  /** The queue is in order of arrival, and nobody is both queued and active. */
  predicate Ordered(w: World) {
    && Ascending(w.queue)
    && (forall i :: 0 <= i < |w.queue| ==> w.queue[i].token < w.arrivals && w.queue[i].token !in w.held)
    && (forall t :: t in w.held ==> t < w.arrivals)
  }

  /** An exclusive lease is the only lease. */
  predicate Exclusive(w: World) {
    forall t, u :: t in w.held && u in w.held && w.held[t] ==> t == u
  }

  /** Whoever is active came before every queued writer, and an active writer came before
      everyone who is queued. */
  predicate Fair(w: World) {
    forall t, i :: t in w.held && 0 <= i < |w.queue| && (w.held[t] || w.queue[i].exclusive) ==>
      t < w.queue[i].token
  }

  predicate Inv(w: World) { Counted(w) && Ordered(w) && Exclusive(w) && Fair(w) }

  lemma {:induction false} Removal(queue: seq<Entry>, t: Token)
    requires Ascending(queue)
    ensures Ascending(WithoutToken(queue, t))
    ensures forall e :: e in WithoutToken(queue, t) <==> e in queue && e.token != t
  {
    if queue != [] && queue[0].token != t {
      Removal(queue[1..], t);
      var rest := WithoutToken(queue[1..], t);
      forall j | 0 <= j < |rest| ensures queue[0].token < rest[j].token {
        assert rest[j] in rest;
      }
    } else if queue != [] {
      forall e | e in queue && e.token != t ensures e in queue[1..] {
        assert e == queue[0] || e in queue[1..];
      }
    }
  }

  lemma {:induction false} BeforeAll(queue: seq<Entry>, i: nat)
    requires Ascending(queue) && i < |queue|
    ensures Before(queue, queue[i].token) == queue[..i]
  {
    if i == 0 {
    } else {
      BeforeAll(queue[1..], i - 1);
      assert queue[..i] == [queue[0]] + queue[1..][..i - 1];
    }
  }

  lemma AddReader(held: map<Token, bool>, t: Token)
    requires t !in held
    ensures |HeldReaders(held[t := false])| == |HeldReaders(held)| + 1
    ensures HeldReaders(held[t := true]) == HeldReaders(held)
  {
    assert HeldReaders(held[t := false]) == HeldReaders(held) + {t};
  }

  lemma DropReader(held: map<Token, bool>, t: Token)
    requires t in held
    ensures |HeldReaders(held - {t})| == |HeldReaders(held)| - if held[t] then 0 else 1
  {
    assert HeldReaders(held - {t}) == HeldReaders(held) - {t};
  }

  lemma ArriveKeepsInv(w: World, exclusive: bool)
    requires Inv(w)
    ensures Inv(Step(w, Arrive(exclusive)))
  {
  }

  lemma CancelKeepsInv(w: World, t: Token)
    requires Inv(w)
    ensures Inv(Step(w, Cancel(t)))
  {
    Removal(w.queue, t);
    QueueShrinks(w, Step(w, Cancel(t)));
  }

  /** Taking entries out of the queue spoils nothing. */
  lemma QueueShrinks(w: World, v: World)
    requires Inv(w) && v == w.(queue := v.queue)
    requires Ascending(v.queue) && forall e :: e in v.queue ==> e in w.queue
    ensures Inv(v)
  {
    forall i | 0 <= i < |v.queue|
      ensures v.queue[i].token < w.arrivals && v.queue[i].token !in w.held
      ensures forall t :: t in w.held && (w.held[t] || v.queue[i].exclusive) ==> t < v.queue[i].token
    {
      assert v.queue[i] in w.queue;
    }
  }

  lemma ReleaseKeepsInv(w: World, t: Token)
    requires Inv(w)
    ensures Inv(Step(w, Release(t)))
  {
    if t in w.held {
      DropReader(w.held, t);
      var v := Step(w, Release(t));
      if w.held[t] {
        assert forall u :: u in v.held ==> u == t;
      } else {
        assert t in HeldReaders(w.held);
      }
    }
  }

  /** An admitted reader has no writer before it, queued or active; an admitted writer has
      nobody before it at all. */
  lemma AdmissionIsFair(w: World, i: nat)
    requires Inv(w) && i < |w.queue| && Admissible(w.queue, w.readers, w.writer, w.queue[i])
    ensures forall t :: t in w.held ==> !w.held[t]
    ensures w.queue[i].exclusive ==> i == 0 && w.held == map[]
    ensures forall j :: 0 <= j < |w.queue| && j != i && (w.queue[i].exclusive || w.queue[j].exclusive) ==>
              w.queue[i].token < w.queue[j].token
  {
    BeforeAll(w.queue, i);
    assert forall j :: 0 <= j < i ==> w.queue[..i][j] == w.queue[j];
    if w.queue[i].exclusive {
      assert i == 0;
      assert w.held.Keys <= HeldReaders(w.held);
    }
  }

  lemma AttemptKeepsInv(w: World, t: Token)
    requires Inv(w)
    ensures Inv(Step(w, Attempt(t)))
  {
    var i := Find(w.queue, t);
    if i >= 0 && Admissible(w.queue, w.readers, w.writer, w.queue[i]) {
      AdmissionIsFair(w, i);
      Removal(w.queue, t);
      var e := w.queue[i];
      var v := w.(queue := WithoutToken(w.queue, t));
      QueueShrinks(w, v);
      AddReader(w.held, t);
      var n := Step(w, Attempt(t));
      assert n == v.(held := w.held[t := e.exclusive], writer := n.writer, readers := n.readers);
      assert Counted(n) by {
        if e.exclusive { assert t in n.held && n.held[t]; }
      }
      forall k | 0 <= k < |n.queue|
        ensures n.queue[k].token != t && (e.exclusive || n.queue[k].exclusive ==> t < n.queue[k].token)
      {
        assert n.queue[k] in v.queue && n.queue[k] in w.queue;
      }
    }
  }

  lemma StepKeepsInv(w: World, a: Action)
    requires Inv(w)
    ensures Inv(Step(w, a))
  {
    match a
    case Arrive(x) => ArriveKeepsInv(w, x);
    case Attempt(t) => AttemptKeepsInv(w, t);
    case Cancel(t) => CancelKeepsInv(w, t);
    case Release(t) => ReleaseKeepsInv(w, t);
  }

  lemma {:induction false} RunKeepsInv(w: World, acts: seq<Action>)
    requires Inv(w)
    ensures Inv(Run(w, acts))
    decreases |acts|
  {
    if acts == [] {
    } else {
      StepKeepsInv(w, acts[0]);
      RunKeepsInv(Step(w, acts[0]), acts[1..]);
    }
  }

  // ---------------------------------------------------------------- main results

  /** In every reachable state an exclusive lease excludes every other lease. */
  lemma MutualExclusion(acts: seq<Action>, t: Token, u: Token)
    ensures var w := Run(INIT, acts);
            t in w.held && u in w.held && t != u ==> !w.held[t] && !w.held[u]
  {
    assert HeldReaders(map[]) == {};
    RunKeepsInv(INIT, acts);
  }

  /** In every reachable state nobody who came after a queued writer is active, and nobody
      who came before an active writer is still queued. */
  lemma NoOvertaking(acts: seq<Action>, active: Token, i: nat)
    requires active in Run(INIT, acts).held && i < |Run(INIT, acts).queue|
    requires Run(INIT, acts).held[active] || Run(INIT, acts).queue[i].exclusive
    ensures active < Run(INIT, acts).queue[i].token
  {
    assert HeldReaders(map[]) == {};
    RunKeepsInv(INIT, acts);
  }

  /** Who stands in the way of a token: the earlier arrivals that are queued or active. */
  function Ahead(w: World, t: Token): set<Token> {
    (set i | 0 <= i < |w.queue| && w.queue[i].token < t :: w.queue[i].token) +
    (set u | u in w.held && u < t)
  }

  /** Whoever keeps a waiter from being admitted is ahead of it. */
  lemma BlockersAhead(w: World, i: nat)
    requires Inv(w) && i < |w.queue|
    ensures i > 0 ==> w.queue[0].token in Ahead(w, w.queue[i].token)
    ensures forall u :: u in w.held && (w.held[u] || w.queue[i].exclusive) ==> u in Ahead(w, w.queue[i].token)
  {
  }

  /** A waiter with nobody ahead is admitted at its next attempt. */
  lemma AdmittedWhenNobodyAhead(w: World, i: nat)
    requires Inv(w) && i < |w.queue| && Ahead(w, w.queue[i].token) == {}
    ensures var t := w.queue[i].token; t in Step(w, Attempt(t)).held
  {
    var e := w.queue[i];
    BlockersAhead(w, i);
    BeforeAll(w.queue, i);
    if e.exclusive {
      assert HeldReaders(w.held) == {};
    }
    assert Admissible(w.queue, w.readers, w.writer, e);
    assert Find(w.queue, e.token) == 0;
  }

  /** No step ever puts anybody ahead of a token that has arrived. */
  lemma AheadNeverGrows(w: World, a: Action, t: Token)
    requires Inv(w) && t < w.arrivals
    ensures Ahead(Step(w, a), t) <= Ahead(w, t)
  {
    var n := Step(w, a);
    match a
    case Arrive(x) =>
      forall u | u in Ahead(n, t) ensures u in Ahead(w, t) {
        if u !in n.held {
          var i :| 0 <= i < |n.queue| && n.queue[i].token == u;
          assert i < |w.queue| && w.queue[i] == n.queue[i];
        }
      }
    case Release(u) =>
    case Attempt(u) =>
      Removal(w.queue, u);
      SmallerQueueAhead(w, n, t);
    case Cancel(u) =>
      Removal(w.queue, u);
      SmallerQueueAhead(w, n, t);
  }

  lemma SmallerQueueAhead(w: World, n: World, t: Token)
    requires forall e :: e in n.queue ==> e in w.queue
    requires forall u :: u in n.held ==> u in w.held || Find(w.queue, u) >= 0
    ensures Ahead(n, t) <= Ahead(w, t)
  {
    forall u | u in Ahead(n, t) ensures u in Ahead(w, t) {
      if u in n.held {
        if u !in w.held {
          assert w.queue[Find(w.queue, u)].token == u;
        }
      } else {
        var i :| 0 <= i < |n.queue| && n.queue[i].token == u;
        assert n.queue[i] in w.queue;
      }
    }
  }

  /** Over any run: what stands ahead of a waiter only shrinks, so no waiter is ever
      overtaken into waiting for a later arrival. */
  lemma {:induction false} AheadShrinks(w: World, acts: seq<Action>, t: Token)
    requires Inv(w) && t < w.arrivals
    ensures Ahead(Run(w, acts), t) <= Ahead(w, t)
    decreases |acts|
  {
    if acts == [] {
    } else {
      AheadNeverGrows(w, acts[0], t);
      StepKeepsInv(w, acts[0]);
      AheadShrinks(Step(w, acts[0]), acts[1..], t);
    }
  }
}
