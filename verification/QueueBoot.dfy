/** The boot passes over a spool: streamed scans, the dead-letter reconcile and the
    seeding of the conservation counters. */
module QueueBoot {
  import opened QueueFraming
  import opened DurableQueue

  // ---------------------------------------------------------------- streamed scans

  function Newlines(s: Bytes): nat {
    if s == [] then 0 else Newlines(s[..|s| - 1]) + if s[|s| - 1] == NL then 1 else 0
  }

  lemma {:induction false} NewlinesConcat(a: Bytes, b: Bytes)
    ensures Newlines(a + b) == Newlines(a) + Newlines(b)
  {
    if b == [] {
      assert a + b == a;
    } else {
      NewlinesConcat(a, b[..|b| - 1]);
      assert (a + b)[..|a + b| - 1] == a + b[..|b| - 1];
    }
  }

  /** Counting newlines counts complete lines. */
  lemma {:induction false} NewlinesAreLines(s: Bytes)
    ensures Newlines(s) == |Frame(s).lines|
  {
    if s == [] {
    } else {
      NewlinesAreLines(s[..|s| - 1]);
    }
  }

  lemma {:induction false} NoNewlineNone(s: Bytes)
    requires NoNewline(s)
    ensures Newlines(s) == 0
  {
    if s == [] {
    } else {
      NoNewlineNone(s[..|s| - 1]);
    }
  }

  /** The end of the last complete line. */
  function CompleteEnd(s: Bytes): nat { |Unlines(Frame(s).lines)| }

  lemma CompleteEndIs(s: Bytes, e: nat)
    requires e <= |s| && (e == 0 || s[e - 1] == NL) && NoNewline(s[e..])
    ensures CompleteEnd(s) == e
  {
    var p := s[..e];
    assert e > 0 ==> p[|p| - 1] == NL;
    FrameRoundTrip(p);
    assert Unlines(Frame(p).lines) == p;
    FrameExtend(p, s[e..]);
    assert p + s[e..] == s;
  }

  /** The last newline in `s[lo..hi]`, or -1: `bytes.rfind` on one chunk. */
  function LastNewline(s: Bytes, lo: nat, hi: nat): (i: int)
    requires lo <= hi <= |s|
    ensures i == -1 || (lo <= i < hi && s[i] == NL)
    ensures forall j | lo <= j < hi && i < j :: s[j] != NL
    decreases hi
  {
    if lo == hi then -1 else if s[hi - 1] == NL then hi - 1 else LastNewline(s, lo, hi - 1)
  }

  /** `_last_complete_end`: search backward from the end in fixed chunks. */
  method LastCompleteEnd(s: Bytes, chunk: nat) returns (end: nat)
    requires chunk > 0
    ensures end == CompleteEnd(s)
  {
    var pos := |s|;
    while pos > 0
      invariant 0 <= pos <= |s| && NoNewline(s[pos..])
    {
      var size := if chunk < pos then chunk else pos;
      var i := LastNewline(s, pos - size, pos);
      if i != -1 {
        CompleteEndIs(s, i + 1);
        return i + 1;
      }
      pos := pos - size;
    }
    CompleteEndIs(s, 0);
    return 0;
  }

  datatype Limit = ToEof | UpTo(n: int)

  function Clip(s: Bytes, i: int): nat { if i < 0 then 0 else if i <= |s| then i else |s| }

  /** The bytes of `s` from `start` up to the limit, as far as they exist. */
  function Range(s: Bytes, start: nat, limit: Limit): Bytes {
    var hi := if limit.ToEof? then |s| else Clip(s, limit.n);
    if start <= hi then s[start..hi] else []
  }

  /** Newlines between two positions. */
  function NewlinesIn(s: Bytes, lo: nat, hi: nat): nat
    requires hi <= |s|
    decreases hi
  {
    if hi <= lo then 0 else NewlinesIn(s, lo, hi - 1) + if s[hi - 1] == NL then 1 else 0
  }

  lemma {:induction false} NewlinesInParts(s: Bytes, lo: nat, mid: nat, hi: nat)
    requires lo <= mid <= hi <= |s|
    ensures NewlinesIn(s, lo, hi) == NewlinesIn(s, lo, mid) + NewlinesIn(s, mid, hi)
    decreases hi
  {
    if mid >= hi {
    } else {
      NewlinesInParts(s, lo, mid, hi - 1);
    }
  }

  lemma {:induction false} NewlinesInSlice(s: Bytes, lo: nat, hi: nat)
    requires lo <= hi <= |s|
    ensures NewlinesIn(s, lo, hi) == Newlines(s[lo..hi])
    decreases hi
  {
    if lo >= hi {
    } else {
      NewlinesInSlice(s, lo, hi - 1);
      assert s[lo..hi][..hi - lo - 1] == s[lo..hi - 1];
    }
  }

  /** `_stream_newlines`: count in fixed chunks. One read takes up to `size` bytes, and none
      at the end of the file. */
  method StreamNewlines(s: Bytes, start: nat, limit: Limit, chunk: nat) returns (count: nat)
    requires chunk > 0
    ensures count == Newlines(Range(s, start, limit))
  {
    count := 0;
    if limit.UpTo? && limit.n <= start { return; }
    var pos := start;
    while pos < |s| && (limit.ToEof? || pos < limit.n)
      invariant start <= pos && (pos == start || pos <= |s|) && (limit.UpTo? ==> pos <= limit.n)
      invariant pos <= |s| ==> count == NewlinesIn(s, start, pos)
      invariant pos > |s| ==> count == 0
    {
      var size := if limit.ToEof? then chunk else if chunk < limit.n - pos then chunk else limit.n - pos;
      var end := if size < |s| - pos then pos + size else |s|;
      NewlinesInParts(s, start, pos, end);
      count := count + NewlinesIn(s, pos, end);
      pos := end;
    }
    if pos <= |s| { NewlinesInSlice(s, start, pos); }
  }

  // ---------------------------------------------------------------- dead-letter reconcile

  /** How many lines from line `n` on are already dead letters. */
  function DeadRun(lines: seq<Bytes>, n: nat, dead: set<Bytes>): (k: nat)
    requires n <= |lines|
    ensures n + k <= |lines|
    ensures forall i | n <= i < n + k :: lines[i] in dead
    ensures n + k < |lines| ==> lines[n + k] !in dead
    decreases |lines| - n
  {
    if n == |lines| || lines[n] !in dead then 0 else 1 + DeadRun(lines, n + 1, dead)
  }

  datatype Skip = Skip(offset: nat, lines: nat)

  /** Step over leading complete lines that are dead letters. */
  function SkipDead(log: Bytes, pos: nat, end: nat, dead: set<Bytes>): Skip
    requires end <= |log|
    decreases |log| - pos
  {
    if end <= pos then Skip(pos, 0) else
    var e := LineEnd(log, pos);
    if e == |log| || log[pos..e] !in dead then Skip(pos, 0) else
    var s := SkipDead(log, e + 1, end, dead);
    Skip(s.offset, s.lines + 1)
  }

  lemma CompleteEndBound(log: Bytes)
    ensures CompleteEnd(log) <= |log| && CompleteEnd(log) == Offset(Frame(log).lines, |Frame(log).lines|)
  {
    FrameRoundTrip(log);
    assert Frame(log).lines[..|Frame(log).lines|] == Frame(log).lines;
  }

  /** One key of `recovery_reconcile_dead`, from any offset the offset file may hold. */
  method ReconcileKey(log: Bytes, committed: nat, dead: set<Bytes>, chunk: nat) returns (offset: nat, skipped: nat)
    requires chunk > 0
    ensures CompleteEnd(log) <= |log|
    ensures Skip(offset, skipped) == if dead == {} then Skip(committed, 0) else SkipDead(log, committed, CompleteEnd(log), dead)
  {
    CompleteEndBound(log);
    offset, skipped := committed, 0;
    if dead == {} { return; }
    var end := LastCompleteEnd(log, chunk);
    while offset < end
      invariant var s := SkipDead(log, offset, end, dead);
                SkipDead(log, committed, end, dead) == Skip(s.offset, s.lines + skipped)
      decreases |log| - offset
    {
      var e := LineEnd(log, offset);
      if e == |log| || log[offset..e] !in dead { break; }
      offset, skipped := e + 1, skipped + 1;
    }
  }

  ghost predicate StepsOver(log: Bytes, lines: seq<Bytes>, end: nat, dead: set<Bytes>, n: nat)
    requires n < |lines| && end <= |log|
  {
    SkipDead(log, Offset(lines, n), end, dead) ==
      if lines[n] !in dead then Skip(Offset(lines, n), 0)
      else var s := SkipDead(log, Offset(lines, n + 1), end, dead); Skip(s.offset, s.lines + 1)
  }

  lemma SkipUnfolds(log: Bytes, pos: nat, e: nat, end: nat, dead: set<Bytes>)
    requires pos <= e < end <= |log| && LineEnd(log, pos) == e
    ensures SkipDead(log, pos, end, dead) ==
              if log[pos..e] !in dead then Skip(pos, 0)
              else var s := SkipDead(log, e + 1, end, dead); Skip(s.offset, s.lines + 1)
  {
  }

  ghost predicate PlacedAt(log: Bytes, lines: seq<Bytes>, end: nat, n: nat)
    requires n < |lines| && end <= |log|
  {
    var pos := Offset(lines, n);
    var e := pos + |lines[n]|;
    e < end && log[pos..e] == lines[n] && LineEnd(log, pos) == e && Offset(lines, n + 1) == e + 1
  }

  /** Where line `n` lies in the log. */
  lemma LinePlace(log: Bytes, n: nat)
    requires n < |Frame(log).lines|
    ensures CompleteEnd(log) <= |log| && PlacedAt(log, Frame(log).lines, CompleteEnd(log), n)
  {
    var lines := Frame(log).lines;
    var pos := Offset(lines, n);
    CompleteEndBound(log);
    LineAt(log, n);
    assert forall i | pos <= i < pos + |lines[n]| :: log[i] == log[pos..pos + |lines[n]|][i - pos];
    LineEndAt(log, pos, pos + |lines[n]|);
    OffsetSucc(lines, n);
    if n + 1 < |lines| { OffsetMonotone(lines, n + 1, |lines|); }
  }

  lemma SkipStep(log: Bytes, lines: seq<Bytes>, end: nat, dead: set<Bytes>, n: nat)
    requires n < |lines| && end <= |log| && PlacedAt(log, lines, end, n)
    ensures StepsOver(log, lines, end, dead, n)
  {
    SkipUnfolds(log, Offset(lines, n), Offset(lines, n) + |lines[n]|, end, dead);
  }

  lemma LinesPlaced(log: Bytes)
    ensures var lines, end := Frame(log).lines, CompleteEnd(log);
            && end <= |log| && end == Offset(lines, |lines|)
            && forall n :: 0 <= n < |lines| ==> PlacedAt(log, lines, end, n)
  {
    CompleteEndBound(log);
    forall n | 0 <= n < |Frame(log).lines| ensures PlacedAt(log, Frame(log).lines, CompleteEnd(log), n) {
      LinePlace(log, n);
    }
  }

  lemma {:induction false} SkipRun(log: Bytes, lines: seq<Bytes>, end: nat, dead: set<Bytes>, n: nat)
    requires n <= |lines| && end <= |log| && end == Offset(lines, |lines|)
    requires forall i :: 0 <= i < |lines| ==> PlacedAt(log, lines, end, i)
    ensures var k := DeadRun(lines, n, dead);
            SkipDead(log, Offset(lines, n), end, dead) == Skip(Offset(lines, n + k), k)
    decreases |lines| - n
  {
    if n >= |lines| {
    } else {
      SkipStep(log, lines, end, dead, n);
      if lines[n] in dead { SkipRun(log, lines, end, dead, n + 1); }
    }
  }

  /** From the offset of line `n`, the reconcile moves over exactly the leading pending
      lines that are byte-equal to dead letters and stops before the first other one. */
  lemma ReconcileMovesOverDeadLines(log: Bytes, n: nat, dead: set<Bytes>)
    requires n <= |Frame(log).lines|
    ensures var lines := Frame(log).lines;
            var k := DeadRun(lines, n, dead);
            CompleteEnd(log) <= |log| && SkipDead(log, Offset(lines, n), CompleteEnd(log), dead) == Skip(Offset(lines, n + k), k)
  {
    LinesPlaced(log);
    SkipRun(log, Frame(log).lines, CompleteEnd(log), dead, n);
  }

  /** A second pass over the result finds nothing more to move. */
  lemma ReconcileIsIdempotent(log: Bytes, n: nat, dead: set<Bytes>)
    requires n <= |Frame(log).lines|
    ensures CompleteEnd(log) <= |log|
    ensures var s := SkipDead(log, Offset(Frame(log).lines, n), CompleteEnd(log), dead);
            SkipDead(log, s.offset, CompleteEnd(log), dead) == Skip(s.offset, 0)
  {
    ReconcileMovesOverDeadLines(log, n, dead);
    ReconcileMovesOverDeadLines(log, n + DeadRun(Frame(log).lines, n, dead), dead);
  }

  // ---------------------------------------------------------------- seeding the counters

  datatype OffsetFile = NoOffset | Value(n: int) | CorruptOffset

  /** What the boot passes find on disk for one worker key; a missing file is empty. */
  datatype Files = Files(safe: bool, hasLog: bool, log: Bytes, offset: OffsetFile, deadLetters: Bytes)

  function Committed(f: Files): int { if f.offset.Value? then f.offset.n else 0 }

  /** A key that the passes skip: its name is unsafe, its offset file does not parse, or a
      negative offset makes seeking in its log fail. */
  predicate Usable(f: Files) {
    f.safe && (f.hasLog || f.log == []) && !f.offset.CorruptOffset? && (Committed(f) >= 0 || !f.hasLog)
  }

  function Position(f: Files): nat { if Committed(f) < 0 then 0 else Committed(f) }

  /** Lines not acknowledged, as the status pass counts them: from the offset to the end. */
  function InQueue(f: Files): nat { Newlines(Range(f.log, Position(f), ToEof)) }
  function Dead(f: Files): nat { Newlines(f.deadLetters) }
  function Acknowledged(f: Files): nat { Newlines(Range(f.log, 0, UpTo(Committed(f)))) }

  function WrittenSeed(f: Files): nat { if Acknowledged(f) <= Dead(f) then 0 else Acknowledged(f) - Dead(f) }

  function SumBy(keys: seq<Files>, measure: Files -> nat): nat {
    if keys == [] then 0 else
    SumBy(keys[..|keys| - 1], measure) + if Usable(keys[|keys| - 1]) then measure(keys[|keys| - 1]) else 0
  }

  lemma ScansAgreeFrom(s: Bytes, c: nat, start: nat)
    requires c <= |s| && NoNewline(s[c..])
    ensures Newlines(Range(s, start, UpTo(c))) == Newlines(Range(s, start, ToEof))
  {
    if start <= c {
      assert Range(s, start, ToEof) == s[start..c] + s[c..];
      assert Range(s, start, UpTo(c)) == s[start..c];
      NewlinesConcat(s[start..c], s[c..]);
      NoNewlineNone(s[c..]);
    } else if start <= |s| {
      assert Range(s, start, ToEof) == s[c..][start - c..];
      NoNewlineNone(s[c..][start - c..]);
    }
  }

  /** No newline lies past the last complete line, so the two scans of the pending
      part, to its complete end and to the end of the file, count the same. */
  lemma PendingScansAgree(s: Bytes, start: nat)
    ensures Newlines(Range(s, start, UpTo(CompleteEnd(s)))) == Newlines(Range(s, start, ToEof))
  {
    CompleteEndBound(s);
    TailAt(s);
    ScansAgreeFrom(s, CompleteEnd(s), start);
  }

  /** `recovery_seed_counts`: after it, every readable key satisfies
      accepted = written + queued + dead, for every chunk size of the scans. */
  method SeedCounts(keys: seq<Files>, chunk: nat) returns (accepted: nat, written: nat)
    requires chunk > 0
    ensures written == SumBy(keys, WrittenSeed)
    ensures accepted == written + SumBy(keys, InQueue) + SumBy(keys, Dead)
  {
    accepted, written := 0, 0;
    var i := 0;
    assert keys[..0] == [];
    while i < |keys|
      invariant 0 <= i <= |keys|
      invariant written == SumBy(keys[..i], WrittenSeed)
      invariant accepted == written + SumBy(keys[..i], InQueue) + SumBy(keys[..i], Dead)
    {
      var f := keys[i];
      assert keys[..i + 1][..i] == keys[..i];
      i := i + 1;
      if Usable(f) {
        var end := LastCompleteEnd(f.log, chunk);
        var dead := StreamNewlines(f.deadLetters, 0, ToEof, chunk);
        var before := StreamNewlines(f.log, 0, UpTo(Committed(f)), chunk);
        var pending := StreamNewlines(f.log, Position(f), UpTo(end), chunk);
        PendingScansAgree(f.log, Position(f));
        assert Range(f.deadLetters, 0, ToEof) == f.deadLetters;
        var seed := if before <= dead then 0 else before - dead;
        accepted, written := accepted + seed + pending + dead, written + seed;
      }
    }
    assert keys[..|keys|] == keys;
  }
}
