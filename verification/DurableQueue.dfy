/** One worker key's log and committed offset: appends over short and failing writes,
    batch reads and acknowledgements, refined to a first-in first-out queue of records. */
module DurableQueue {
  import opened QueueFraming

  /** A record without its terminator and the cursors the queue assigned it. */
  datatype Record = Record(raw: Bytes, start: nat, end: nat)

  // ---------------------------------------------------------------- writing

  /** Bytes written and calls made by a write loop over `len` bytes. `os[i]` is the
      number of bytes call `i` takes; zero, or no entry, is a call that fails. */
  datatype Progress = Progress(written: nat, calls: nat)

  function Taken(len: nat, os: seq<nat>): (p: Progress)
    ensures p.written <= len && p.calls <= |os|
    decreases |os|
  {
    if len == 0 then Progress(0, 0)
    else if os == [] then Progress(0, 0)
    else if os[0] == 0 then Progress(0, 1)
    else if len <= os[0] then Progress(len, 1)
    else var p := Taken(len - os[0], os[1..]); Progress(os[0] + p.written, p.calls + 1)
  }

  predicate TakenSoFar(len: nat, os: seq<nat>, written: nat, calls: nat) {
    written <= len && calls <= |os| &&
    var rest := Taken(len - written, os[calls..]);
    Taken(len, os) == Progress(written + rest.written, calls + rest.calls)
  }

  /** The log after `_write_record`: a failed write is closed with a newline if that
      write succeeds, and nothing is ever removed. */
  function Written(log: Bytes, line: Bytes, os: seq<nat>): Bytes {
    var p := Taken(|line|, os);
    if p.written == |line| then log + line
    else if Closes(line, os) then log + line[..p.written] + [NL]
    else log + line[..p.written]
  }

  predicate WriteSucceeds(line: Bytes, os: seq<nat>) { Taken(|line|, os).written == |line| }

  /** Whether the newline that closes a failed write is written. */
  predicate Closes(line: Bytes, os: seq<nat>) { Taken(1, os[Taken(|line|, os).calls..]).written == 1 }

  function Terminated(raw: Bytes): Bytes {
    if raw != [] && raw[|raw| - 1] == NL then raw else raw + [NL]
  }

  // ---------------------------------------------------------------- reading

  /** The index of the first newline at or after `pos`, or the end of the file. */
  function LineEnd(s: Bytes, pos: nat): (e: nat)
    requires pos <= |s|
    ensures pos <= e <= |s| && (e < |s| ==> s[e] == NL)
    ensures forall i | pos <= i < e :: s[i] != NL
    decreases |s| - pos
  {
    if pos == |s| || s[pos] == NL then pos else LineEnd(s, pos + 1)
  }

  /** The first `max` complete lines from `pos`; reading stops at the end of the file
      or at an unterminated line. */
  function ReadFrom(s: Bytes, pos: nat, max: nat): seq<Record>
    decreases max
  {
    if max == 0 || |s| <= pos || LineEnd(s, pos) == |s| then [] else
    var e := LineEnd(s, pos);
    [Record(s[pos..e], pos, e + 1)] + ReadFrom(s, e + 1, max - 1)
  }

  /** What has been read, with what a read from here would still return, is the whole. */
  predicate ReadSoFar(s: Bytes, start: nat, max: nat, records: seq<Record>, pos: nat) {
    |records| <= max && records + ReadFrom(s, pos, max - |records|) == ReadFrom(s, start, max)
  }

  lemma ReadMore(s: Bytes, start: nat, max: nat, records: seq<Record>, pos: nat)
    requires ReadSoFar(s, start, max, records, pos) && |records| < max && pos < |s| && LineEnd(s, pos) < |s|
    ensures var e := LineEnd(s, pos);
            ReadSoFar(s, start, max, records + [Record(s[pos..e], pos, e + 1)], e + 1)
  {
    var e := LineEnd(s, pos);
    var r := Record(s[pos..e], pos, e + 1);
    var rest := ReadFrom(s, e + 1, max - |records| - 1);
    assert ReadFrom(s, pos, max - |records|) == [r] + rest;
    assert records + ([r] + rest) == (records + [r]) + rest;
  }

  lemma ReadAll(s: Bytes, start: nat, max: nat, records: seq<Record>, pos: nat)
    requires ReadSoFar(s, start, max, records, pos)
    requires |records| == max || |s| <= pos || LineEnd(s, pos) == |s|
    ensures records == ReadFrom(s, start, max)
  {
    assert ReadFrom(s, pos, max - |records|) == [];
  }

  function EndOf(records: seq<Record>, start: nat): nat {
    if records == [] then start else records[|records| - 1].end
  }

  /** QueueManager on one key: the log file and the offset file. */
  class QueueFile {
    var log: Bytes
    var offset: nat

    constructor ()
      ensures log == [] && offset == 0
    {
      log, offset := [], 0;
    }

    /** Write all of `data`, looping over short writes. */
    method WriteAll(data: Bytes, os: seq<nat>) returns (written: nat, calls: nat)
      modifies this`log
      ensures Progress(written, calls) == Taken(|data|, os)
      ensures log == old(log) + data[..written]
    {
      written, calls := 0, 0;
      assert data[..0] == [];
      assert os[0..] == os;
      while written < |data|
        invariant written <= |data| && calls <= |os| && TakenSoFar(|data|, os, written, calls)
        invariant log == old(log) + data[..written]
        decreases |data| - written
      {
        if calls == |os| { return; }
        var n := os[calls];
        assert os[calls..][0] == n && os[calls..][1..] == os[calls + 1..];
        calls := calls + 1;
        if n == 0 { return; }
        var m := if n <= |data| - written then n else |data| - written;
        assert data[..written] + data[written..written + m] == data[..written + m];
        log := log + data[written..written + m];
        written := written + m;
      }
    }

    method WriteRecord(line: Bytes, os: seq<nat>) returns (ok: bool)
      modifies this`log
      ensures log == Written(old(log), line, os) && ok == WriteSucceeds(line, os)
    {
      var written, calls := WriteAll(line, os);
      ok := written == |line|;
      if !ok {
        var closed, _ := WriteAll([NL], os[calls..]);
        assert [NL][..closed] == if closed == 1 then [NL] else [];
      }
    }

    method Append(raw: Bytes, os: seq<nat>) returns (ok: bool)
      modifies this`log
      ensures log == Written(old(log), Terminated(raw), os) && ok == WriteSucceeds(Terminated(raw), os)
    {
      ok := WriteRecord(Terminated(raw), os);
    }

    method ReadBatch(max: nat) returns (records: seq<Record>, end: nat)
      ensures records == ReadFrom(log, offset, max) && end == EndOf(records, offset)
    {
      records, end := [], offset;
      while |records| < max && end < |log|
        invariant |records| <= max && end == EndOf(records, offset)
        invariant ReadSoFar(log, offset, max, records, end)
        decreases max - |records|
      {
        var e := LineEnd(log, end);
        if e == |log| { break; }
        ReadMore(log, offset, max, records, end);
        records, end := records + [Record(log[end..e], end, e + 1)], e + 1;
      }
      ReadAll(log, offset, max, records, end);
    }

    method Commit(newOffset: nat)
      modifies this`offset
      ensures offset == newOffset
    {
      offset := newOffset;
    }

    /** Remove a log whose every byte is acknowledged, and its offset with it. No reader can
        tell: what a batch of any size would return is the same before and after. */
    method DeleteDrained() returns (removed: bool)
      modifies this
      ensures removed <==> |old(log)| <= old(offset)
      ensures removed ==> log == [] && offset == 0
      ensures !removed ==> log == old(log) && offset == old(offset)
      ensures forall max: nat :: ReadFrom(log, offset, max) == old(ReadFrom(log, offset, max))
    {
      removed := |log| <= offset;
      if removed { log, offset := [], 0; }
    }
  }

  // ---------------------------------------------------------------- what a read returns

  lemma LineEndAt(s: Bytes, pos: nat, e: nat)
    requires pos <= e < |s| && s[e] == NL && forall i | pos <= i < e :: s[i] != NL
    ensures LineEnd(s, pos) == e
  {
  }

  ghost function Min(a: nat, b: nat): nat { if a < b then a else b }

  lemma ReadStep(s: Bytes, n: nat, max: nat)
    requires n < |Frame(s).lines| && max > 0
    ensures var lines := Frame(s).lines;
            ReadFrom(s, Offset(lines, n), max)
            == [Record(lines[n], Offset(lines, n), Offset(lines, n + 1))] + ReadFrom(s, Offset(lines, n + 1), max - 1)
  {
    var lines := Frame(s).lines;
    var pos := Offset(lines, n);
    LineAt(s, n);
    assert forall i | pos <= i < pos + |lines[n]| :: s[i] == s[pos..pos + |lines[n]|][i - pos];
    LineEndAt(s, pos, pos + |lines[n]|);
    OffsetSucc(lines, n);
  }

  lemma ReadStops(s: Bytes, max: nat)
    ensures ReadFrom(s, Offset(Frame(s).lines, |Frame(s).lines|), max) == []
  {
    var pos := Offset(Frame(s).lines, |Frame(s).lines|);
    TailAt(s);
    if pos < |s| { assert forall i | pos <= i < |s| :: s[i] == s[pos..][i - pos]; }
  }

  /** The records of lines `n`, `n + 1`, ... up to `max` of them. */
  ghost function RecordsOf(lines: seq<Bytes>, n: nat, max: nat): seq<Record>
    requires n <= |lines|
  {
    seq(Min(max, |lines| - n), i requires 0 <= i < |lines| - n =>
      Record(lines[n + i], Offset(lines, n + i), Offset(lines, n + i + 1)))
  }

  lemma RecordsHead(lines: seq<Bytes>, n: nat, max: nat)
    requires n < |lines| && max > 0
    ensures RecordsOf(lines, n, max)
            == [Record(lines[n], Offset(lines, n), Offset(lines, n + 1))] + RecordsOf(lines, n + 1, max - 1)
  {
  }

  /** From the offset of line `n`, a read returns the next lines in order, byte for byte,
      each with the offsets around it, and never the unterminated tail. */
  lemma {:induction false} ReadReturnsLines(s: Bytes, n: nat, max: nat)
    requires n <= |Frame(s).lines|
    ensures ReadFrom(s, Offset(Frame(s).lines, n), max) == RecordsOf(Frame(s).lines, n, max)
    decreases max
  {
    var lines := Frame(s).lines;
    if n == |lines| {
      ReadStops(s, max);
    } else if max > 0 {
      ReadStep(s, n, max);
      ReadReturnsLines(s, n + 1, max - 1);
      RecordsHead(lines, n, max);
    }
  }

  // ---------------------------------------------------------------- what an append adds

  predicate IsRecord(raw: Bytes) { NoNewline(Terminated(raw)[..|Terminated(raw)| - 1]) }

  /** The record's own bytes, without a terminator the caller may have given. */
  function Content(raw: Bytes): Bytes { Terminated(raw)[..|Terminated(raw)| - 1] }

  /** A successful append adds one line: the torn tail it found, then the record. */
  lemma AppendAddsLine(log: Bytes, raw: Bytes, os: seq<nat>)
    requires IsRecord(raw) && WriteSucceeds(Terminated(raw), os)
    ensures Frame(Written(log, Terminated(raw), os))
            == Framed(Frame(log).lines + [Frame(log).tail + Content(raw)], [])
  {
    FrameLine(log, Content(raw));
    assert log + Content(raw) + [NL] == log + Terminated(raw);
  }

  /** A failed append keeps every complete line; what it wrote is closed as a line of
      its own, or left as part of the tail when the closing newline fails too. */
  lemma FailedAppendAdds(log: Bytes, raw: Bytes, os: seq<nat>)
    requires IsRecord(raw) && !WriteSucceeds(Terminated(raw), os)
    ensures var part := Content(raw)[..Taken(|Terminated(raw)|, os).written];
            var f, g := Frame(log), Frame(Written(log, Terminated(raw), os));
            g == if Closes(Terminated(raw), os) then Framed(f.lines + [f.tail + part], []) else Framed(f.lines, f.tail + part)
  {
    var part := Content(raw)[..Taken(|Terminated(raw)|, os).written];
    assert part == Terminated(raw)[..|part|];
    FrameExtend(log, part);
    FrameLine(log, part);
  }

  /** An append that succeeds is delivered byte for byte exactly when the log was
      newline-terminated before it. */
  lemma DeliveredVerbatimIff(log: Bytes, raw: Bytes, os: seq<nat>)
    requires IsRecord(raw) && WriteSucceeds(Terminated(raw), os)
    ensures var lines := Frame(Written(log, Terminated(raw), os)).lines;
            lines != [] && (lines[|lines| - 1] == Content(raw) <==> log == [] || log[|log| - 1] == NL)
  {
    AppendAddsLine(log, raw, os);
    assert |Frame(log).tail + Content(raw)| == |Frame(log).tail| + |Content(raw)|;
    assert log != [] ==> (Frame(log).tail == [] <==> log[|log| - 1] == NL);
  }
}
