/** Delivery over whole runs of one queue: appends by any number of writers, one
    consumer that reads and acknowledges, trims of a drained log, and crashes. */
module QueueDelivery {
  import opened QueueFraming
  import opened DurableQueue

  /** What one complete line of the log is: completed by an append that succeeded, or not. */
  datatype Entry = Good(text: Bytes) | Junk(text: Bytes)

  /** `entries` are all lines ever completed, of which the first `dropped` were trimmed
      away with their log and the first `acked` acknowledged; `batch` is what the
      consumer has read and not acknowledged; `accepted` and `failures` are histories. */
  datatype World = World(log: Bytes, offset: nat, batch: seq<Record>,
                         entries: seq<Entry>, dropped: nat, acked: nat, accepted: seq<Bytes>, failures: nat)

  datatype Action =
    | Append(raw: Bytes, os: seq<nat>) | Read(max: nat) | Ack(i: nat) | Trim | Crash

  function AppendStep(w: World, raw: Bytes, os: seq<nat>): World {
    var line, tail := Terminated(raw), Frame(w.log).tail;
    var log := Written(w.log, line, os);
    if WriteSucceeds(line, os) then
      w.(log := log, accepted := w.accepted + [Content(raw)],
         entries := w.entries + [Good(tail + Content(raw))])
    else
      var part := Content(raw)[..Taken(|line|, os).written];
      w.(log := log, failures := w.failures + 1,
         entries := if Closes(line, os) then w.entries + [Junk(tail + part)] else w.entries)
  }

  function Step(w: World, a: Action): World {
    match a
    case Append(raw, os) => AppendStep(w, raw, os)
    case Read(max) => w.(batch := ReadFrom(w.log, w.offset, max))
    case Ack(i) =>
      if i < |w.batch| then w.(offset := w.batch[i].end, acked := w.acked + i + 1, batch := w.batch[i + 1..]) else w
    case Trim => if |w.log| <= w.offset then w.(log := [], offset := 0, batch := [], dropped := w.acked) else w
    case Crash => w.(batch := [])
  }

  function Run(w: World, actions: seq<Action>): World
    decreases |actions|
  {
    if actions == [] then w else Run(Step(w, actions[0]), actions[1..])
  }

  const EMPTY := World([], 0, [], [], 0, 0, [], 0)

  function Texts(entries: seq<Entry>): (t: seq<Bytes>)
    ensures |t| == |entries| && forall i | 0 <= i < |t| :: t[i] == entries[i].text
  {
    seq(|entries|, i requires 0 <= i < |entries| => entries[i].text)
  }

  function Goods(entries: seq<Entry>): seq<Bytes> {
    if entries == [] then [] else
    Goods(entries[..|entries| - 1]) + (if entries[|entries| - 1].Good? then [entries[|entries| - 1].text] else [])
  }

  /** The offset stands after `n` lines, and the batch is what follows. */
  ghost predicate Placed(lines: seq<Bytes>, offset: nat, n: nat, batch: seq<Record>) {
    && n + |batch| <= |lines| && offset == Offset(lines, n) && batch == RecordsOf(lines, n, |batch|)
  }

  /** The log holds the untrimmed lines in order, the offset stands after the
      acknowledged ones, and the batch is what follows. */
  ghost predicate Inv(w: World) { InvOn(w, Frame(w.log).lines) }

  ghost predicate InvOn(w: World, lines: seq<Bytes>) {
    && w.dropped <= w.acked <= |w.entries|
    && lines == Texts(w.entries[w.dropped..])
    && Placed(lines, w.offset, w.acked - w.dropped, w.batch)
  }

  predicate WellFormed(a: Action) { a.Append? ==> IsRecord(a.raw) }

  lemma RecordsStable(lines: seq<Bytes>, more: seq<Bytes>, n: nat, k: nat)
    requires n + k <= |lines|
    ensures RecordsOf(lines + more, n, k) == RecordsOf(lines, n, k)
  {
    var a, b := RecordsOf(lines + more, n, k), RecordsOf(lines, n, k);
    forall i | 0 <= i < k ensures a[i] == b[i] {
      OffsetStable(lines, more, n + i);
      OffsetStable(lines, more, n + i + 1);
    }
  }

  lemma TextsGrow(entries: seq<Entry>, more: seq<Entry>, n: nat)
    requires n <= |entries|
    ensures Texts((entries + more)[n..]) == Texts(entries[n..]) + Texts(more)
  {
    assert (entries + more)[n..] == entries[n..] + more;
  }

  /** Complete lines are only ever added at the end. */
  lemma GrowKeepsInv(w: World, v: World, lines: seq<Bytes>, more: seq<Entry>)
    requires InvOn(w, lines) && v == w.(log := v.log, entries := w.entries + more, accepted := v.accepted, failures := v.failures)
    ensures InvOn(v, lines + Texts(more))
  {
    TextsGrow(w.entries, more, w.dropped);
    GrowKeepsPlace(lines, Texts(more), w.offset, w.acked - w.dropped, w.batch);
  }

  lemma GrowKeepsPlace(lines: seq<Bytes>, more: seq<Bytes>, offset: nat, n: nat, batch: seq<Record>)
    requires Placed(lines, offset, n, batch)
    ensures Placed(lines + more, offset, n, batch)
  {
    OffsetStable(lines, more, n);
    RecordsStable(lines, more, n, |batch|);
  }

  lemma AppendKeepsInv(w: World, raw: Bytes, os: seq<nat>)
    requires Inv(w) && IsRecord(raw)
    ensures Inv(AppendStep(w, raw, os))
  {
    var v := AppendStep(w, raw, os);
    if WriteSucceeds(Terminated(raw), os) {
      AppendAddsLine(w.log, raw, os);
      assert Frame(w.log).tail + Content(raw) == v.entries[|w.entries|].text;
    } else {
      FailedAppendAdds(w.log, raw, os);
    }
    GrowKeepsInv(w, v, Frame(w.log).lines, v.entries[|w.entries|..]);
  }

  lemma RecordsSuffix(lines: seq<Bytes>, n: nat, k: nat, m: nat)
    requires m <= k && n + k <= |lines|
    ensures RecordsOf(lines, n, k)[m..] == RecordsOf(lines, n + m, k - m)
  {
    var a, b := RecordsOf(lines, n, k)[m..], RecordsOf(lines, n + m, k - m);
    forall i | 0 <= i < k - m ensures a[i] == b[i] {
      assert a[i] == RecordsOf(lines, n, k)[m + i];
    }
  }

  lemma AckMovesOn(lines: seq<Bytes>, offset: nat, n: nat, batch: seq<Record>, i: nat)
    requires Placed(lines, offset, n, batch) && i < |batch|
    ensures Placed(lines, batch[i].end, n + i + 1, batch[i + 1..])
  {
    assert batch[i] == Record(lines[n + i], Offset(lines, n + i), Offset(lines, n + i + 1));
    RecordsSuffix(lines, n, |batch|, i + 1);
  }

  lemma AckOn(w: World, lines: seq<Bytes>, i: nat)
    requires InvOn(w, lines) && i < |w.batch|
    ensures InvOn(Step(w, Ack(i)), lines)
  {
    AckMovesOn(lines, w.offset, w.acked - w.dropped, w.batch, i);
  }

  lemma AckKeepsInv(w: World, i: nat)
    requires Inv(w) && i < |w.batch|
    ensures Inv(Step(w, Ack(i)))
  {
    AckOn(w, Frame(w.log).lines, i);
  }

  lemma ReadKeepsInv(w: World, max: nat)
    requires Inv(w)
    ensures Inv(Step(w, Read(max)))
  {
    var n := w.acked - w.dropped;
    ReadReturnsLines(w.log, n, max);
    var batch := RecordsOf(Frame(w.log).lines, n, max);
    assert batch == RecordsOf(Frame(w.log).lines, n, |batch|);
  }

  lemma TrimKeepsInv(w: World)
    requires Inv(w) && |w.log| <= w.offset
    ensures Inv(Step(w, Trim)) && w.acked == |w.entries| && Frame(w.log).tail == []
  {
    var lines := Frame(w.log).lines;
    TailAt(w.log);
    if w.acked < |w.entries| { OffsetMonotone(lines, w.acked - w.dropped, |lines|); }
  }

  lemma StepKeepsInv(w: World, a: Action)
    requires Inv(w) && WellFormed(a)
    ensures Inv(Step(w, a))
  {
    match a
    case Append(raw, os) => AppendKeepsInv(w, raw, os);
    case Read(max) => ReadKeepsInv(w, max);
    case Ack(i) => if i < |w.batch| { AckKeepsInv(w, i); }
    case Trim => if |w.log| <= w.offset { TrimKeepsInv(w); }
    case Crash =>
  }

  lemma {:induction false} RunKeepsInv(w: World, actions: seq<Action>)
    requires Inv(w) && forall i | 0 <= i < |actions| :: WellFormed(actions[i])
    ensures Inv(Run(w, actions))
    decreases |actions|
  {
    if actions == [] {
    } else {
      StepKeepsInv(w, actions[0]);
      RunKeepsInv(Step(w, actions[0]), actions[1..]);
    }
  }

  // ---------------------------------------------------------------- theorems

  lemma EmptyInv()
    ensures Inv(EMPTY)
  {
    assert EMPTY.batch == RecordsOf([], 0, 0);
  }

  lemma BatchLine(w: World, j: nat)
    requires Inv(w) && j < |w.batch|
    ensures w.batch[j].raw == w.entries[w.acked + j].text
  {
    var lines, n := Frame(w.log).lines, w.acked - w.dropped;
    assert w.batch[j] == Record(lines[n + j], Offset(lines, n + j), Offset(lines, n + j + 1));
    assert lines[n + j] == w.entries[w.dropped..][n + j].text;
  }

  /** What an acknowledgement acknowledges: the next lines, in order, byte for byte. */
  lemma AckDeliversInOrder(actions: seq<Action>, w: World, i: nat, j: nat)
    requires forall n | 0 <= n < |actions| :: WellFormed(actions[n])
    requires w == Run(EMPTY, actions) && j <= i < |w.batch|
    ensures Step(w, Ack(i)).acked == w.acked + i + 1 <= |w.entries|
    ensures w.batch[j].raw == w.entries[w.acked + j].text
  {
    EmptyInv();
    RunKeepsInv(EMPTY, actions);
    BatchLine(w, j);
    AckCounts(w, i);
  }

  lemma AckCounts(w: World, i: nat)
    requires Inv(w) && i < |w.batch|
    ensures Step(w, Ack(i)).acked == w.acked + i + 1 <= |w.entries|
  {
  }

  /** Every append of the run that succeeds finds the log newline-terminated. */
  ghost predicate NeverOntoTornTail(w: World, actions: seq<Action>)
    decreases |actions|
  {
    actions == []
    || (&& !OntoTornTail(w, actions[0])
        && NeverOntoTornTail(Step(w, actions[0]), actions[1..]))
  }

  lemma GoodsSnoc(entries: seq<Entry>, e: Entry)
    ensures Goods(entries + [e]) == Goods(entries) + if e.Good? then [e.text] else []
  {
    assert (entries + [e])[..|entries|] == entries;
  }

  ghost predicate Faithful(w: World) {
    Goods(w.entries) == w.accepted && |w.entries| <= |w.accepted| + w.failures
  }

  lemma StepFaithful(w: World, a: Action)
    requires Faithful(w) && !OntoTornTail(w, a)
    ensures Faithful(Step(w, a))
  {
    StepAgrees(w, a);
  }

  lemma {:induction false} RunFaithful(w: World, actions: seq<Action>)
    requires Faithful(w) && NeverOntoTornTail(w, actions)
    ensures Faithful(Run(w, actions))
    decreases |actions|
  {
    if actions == [] {
    } else {
      StepFaithful(w, actions[0]);
      RunFaithful(Step(w, actions[0]), actions[1..]);
    }
  }

  lemma {:induction false} GoodsPrefix(a: seq<Entry>, b: seq<Entry>)
    ensures Goods(a) <= Goods(a + b)
    decreases |b|
  {
    if b == [] {
      assert a + b == a;
    } else {
      GoodsPrefix(a, b[..|b| - 1]);
      assert a + b == (a + b[..|b| - 1]) + [b[|b| - 1]];
      GoodsSnoc(a + b[..|b| - 1], b[|b| - 1]);
    }
  }

  ghost predicate Delivered(w: World) {
    && Goods(w.entries) == w.accepted && |w.entries| <= |w.accepted| + w.failures
    && w.dropped <= w.acked <= |w.entries|
    && Goods(w.entries[..w.acked]) <= w.accepted
    && (w.acked == |w.entries| ==> Goods(w.entries[..w.acked]) == w.accepted)
    && Frame(w.log).lines == Texts(w.entries[w.dropped..])
    && (|w.log| <= w.offset ==> w.acked == |w.entries|)
  }

  lemma AckedGoods(entries: seq<Entry>, acked: nat)
    requires acked <= |entries|
    ensures Goods(entries[..acked]) <= Goods(entries)
    ensures acked == |entries| ==> Goods(entries[..acked]) == Goods(entries)
  {
    GoodsPrefix(entries[..acked], entries[acked..]);
    assert entries[..acked] + entries[acked..] == entries;
    assert acked == |entries| ==> entries[..acked] == entries;
  }

  lemma FaithfulDelivers(w: World)
    requires Inv(w) && Faithful(w)
    ensures Delivered(w)
  {
    AckedGoods(w.entries, w.acked);
    if |w.log| <= w.offset { TrimKeepsInv(w); }
  }

  /** The lines completed by a run are exactly its successful appends, in order and byte
      for byte, plus at most one junk line for each failed write. Acknowledged lines are
      an initial part of them, and all of them once every byte is acknowledged: nothing
      is lost, repeated, reordered or torn. */
  lemma DeliveredExactlyOnce(actions: seq<Action>)
    requires forall n | 0 <= n < |actions| :: WellFormed(actions[n])
    requires NeverOntoTornTail(EMPTY, actions)
    ensures Delivered(Run(EMPTY, actions))
  {
    EmptyInv();
    RunKeepsInv(EMPTY, actions);
    RunFaithful(EMPTY, actions);
    FaithfulDelivers(Run(EMPTY, actions));
  }

  /** The step is an append that succeeds on a torn tail. */
  ghost predicate OntoTornTail(w: World, a: Action) {
    a.Append? && WriteSucceeds(Terminated(a.raw), a.os) && Frame(w.log).tail != []
  }

  lemma SnocAgrees(a: seq<Bytes>, b: seq<Bytes>, x: Bytes, y: Bytes)
    requires |a| == |b|
    ensures a + [x] == b + [y] <==> a == b && x == y
  {
    if a + [x] == b + [y] {
      assert a == (a + [x])[..|a|] && b == (b + [y])[..|b|];
      assert x == (a + [x])[|a|] && y == (b + [y])[|b|];
    }
  }

  /** One line is completed for each accepted record, and the two are the same bytes unless
      the append found a torn tail. */
  lemma StepAgrees(w: World, a: Action)
    requires |Goods(w.entries)| == |w.accepted|
    ensures var v := Step(w, a);
            && |Goods(v.entries)| == |v.accepted|
            && (Goods(v.entries) == v.accepted <==> Goods(w.entries) == w.accepted && !OntoTornTail(w, a))
  {
    var v := Step(w, a);
    if v.entries != w.entries { GoodsSnoc(w.entries, v.entries[|w.entries|]); }
    if a.Append? && WriteSucceeds(Terminated(a.raw), a.os) {
      var tail, content := Frame(w.log).tail, Content(a.raw);
      assert tail + content == content <==> tail == [] by {
        assert |tail + content| == |tail| + |content|;
      }
      SnocAgrees(Goods(w.entries), w.accepted, tail + content, content);
    }
  }

  lemma {:induction false} RunAgrees(w: World, actions: seq<Action>)
    requires |Goods(w.entries)| == |w.accepted|
    ensures var v := Run(w, actions);
            Goods(v.entries) == v.accepted <==> Goods(w.entries) == w.accepted && NeverOntoTornTail(w, actions)
    decreases |actions|
  {
    if actions == [] {
    } else {
      StepAgrees(w, actions[0]);
      RunAgrees(Step(w, actions[0]), actions[1..]);
    }
  }

  /** The condition is exact: the lines that successful appends completed are, in order and
      byte for byte, the records they were given, if and only if none found a torn tail. */
  lemma FaithfulIffNeverTorn(actions: seq<Action>)
    ensures Goods(Run(EMPTY, actions).entries) == Run(EMPTY, actions).accepted <==> NeverOntoTornTail(EMPTY, actions)
  {
    RunAgrees(EMPTY, actions);
  }
}
