/** Newline framing of the queue's append-only logs. */
module QueueFraming {

  newtype byte = x: int | 0 <= x < 256

  type Bytes = seq<byte>

  const NL: byte := 10

  predicate NoNewline(s: Bytes) { forall i | 0 <= i < |s| :: s[i] != NL }

  /** Complete lines without their terminators, and the unterminated tail. */
  datatype Framed = Framed(lines: seq<Bytes>, tail: Bytes)

  function Frame(s: Bytes): (f: Framed)
    ensures NoNewline(f.tail)
    ensures forall i | 0 <= i < |f.lines| :: NoNewline(f.lines[i])
  {
    if s == [] then Framed([], []) else
    var f := Frame(s[..|s| - 1]);
    if s[|s| - 1] == NL then Framed(f.lines + [f.tail], []) else Framed(f.lines, f.tail + [s[|s| - 1]])
  }

  /** The bytes of complete lines, each with its terminator. */
  function Unlines(lines: seq<Bytes>): Bytes {
    if lines == [] then [] else Unlines(lines[..|lines| - 1]) + lines[|lines| - 1] + [NL]
  }

  /** Framing loses nothing: the lines and the tail are the file. */
  lemma {:induction false} FrameRoundTrip(s: Bytes)
    ensures Unlines(Frame(s).lines) + Frame(s).tail == s
  {
    if s == [] {
    } else {
      var m, c := s[..|s| - 1], s[|s| - 1];
      var f := Frame(m);
      FrameRoundTrip(m);
      assert s == m + [c];
      if c == NL {
        assert (f.lines + [f.tail])[..|f.lines|] == f.lines;
        assert Unlines(f.lines + [f.tail]) == m + [NL];
        assert Frame(s).tail == [];
      } else {
        assert Frame(s).tail == f.tail + [c];
        assert Unlines(f.lines) + (f.tail + [c]) == Unlines(f.lines) + f.tail + [c];
      }
    }
  }

  lemma FramePut(s: Bytes, c: byte)
    requires c != NL
    ensures Frame(s + [c]) == Framed(Frame(s).lines, Frame(s).tail + [c])
  {
    assert (s + [c])[..|s|] == s;
  }

  /** Bytes without a newline only extend the tail. */
  lemma {:induction false} FrameExtend(s: Bytes, x: Bytes)
    requires NoNewline(x)
    ensures Frame(s + x) == Framed(Frame(s).lines, Frame(s).tail + x)
    decreases |x|
  {
    if x == [] {
      assert s + x == s && Frame(s).tail + x == Frame(s).tail;
    } else {
      var t := Frame(s).tail;
      FramePut(s, x[0]);
      FrameExtend(s + [x[0]], x[1..]);
      assert s + [x[0]] + x[1..] == s + x && t + [x[0]] + x[1..] == t + x;
    }
  }

  /** A newline turns the tail into a line. */
  lemma FrameClose(s: Bytes)
    ensures Frame(s + [NL]) == Framed(Frame(s).lines + [Frame(s).tail], [])
  {
    assert (s + [NL])[..|s|] == s;
  }

  /** Text and a newline end the line that the tail began. */
  lemma FrameLine(s: Bytes, x: Bytes)
    requires NoNewline(x)
    ensures Frame(s + x + [NL]) == Framed(Frame(s).lines + [Frame(s).tail + x], [])
  {
    FrameExtend(s, x);
    FrameClose(s + x);
  }

  lemma {:induction false} UnlinesConcat(a: seq<Bytes>, b: seq<Bytes>)
    ensures Unlines(a + b) == Unlines(a) + Unlines(b)
  {
    if b == [] {
      assert a + b == a;
    } else {
      assert (a + b)[..|a + b| - 1] == a + b[..|b| - 1];
      UnlinesConcat(a, b[..|b| - 1]);
    }
  }

  /** The offset after the first `n` lines. */
  function Offset(lines: seq<Bytes>, n: nat): nat
    requires n <= |lines|
  {
    |Unlines(lines[..n])|
  }

  lemma OffsetSucc(lines: seq<Bytes>, n: nat)
    requires n < |lines|
    ensures Offset(lines, n + 1) == Offset(lines, n) + |lines[n]| + 1
  {
    assert lines[..n + 1][..n] == lines[..n];
  }

  lemma Middle(a: Bytes, b: Bytes, c: byte, d: Bytes)
    ensures (a + b + [c] + d)[|a|..|a| + |b|] == b && (a + b + [c] + d)[|a| + |b|] == c
  {
  }

  lemma {:induction false} UnlinesSplit(lines: seq<Bytes>, n: nat)
    requires n < |lines|
    ensures Unlines(lines) == Unlines(lines[..n]) + lines[n] + [NL] + Unlines(lines[n + 1..])
  {
    assert lines == lines[..n + 1] + lines[n + 1..];
    UnlinesConcat(lines[..n + 1], lines[n + 1..]);
    assert lines[..n + 1][..n] == lines[..n];
  }

  /** What lies at the offset of line `n`. */
  lemma LineAt(s: Bytes, n: nat)
    requires n < |Frame(s).lines|
    ensures var o, line := Offset(Frame(s).lines, n), Frame(s).lines[n];
            o + |line| < |s| && s[o..o + |line|] == line && s[o + |line|] == NL
  {
    var f := Frame(s);
    FrameRoundTrip(s);
    UnlinesSplit(f.lines, n);
    var a, d := Unlines(f.lines[..n]), Unlines(f.lines[n + 1..]) + f.tail;
    assert a + f.lines[n] + [NL] + Unlines(f.lines[n + 1..]) + f.tail == a + f.lines[n] + [NL] + d;
    Middle(a, f.lines[n], NL, d);
  }

  lemma TailAt(s: Bytes)
    ensures var o := Offset(Frame(s).lines, |Frame(s).lines|);
            o <= |s| && s[o..] == Frame(s).tail
  {
    FrameRoundTrip(s);
    assert Frame(s).lines[..|Frame(s).lines|] == Frame(s).lines;
  }

  lemma {:induction false} OffsetMonotone(lines: seq<Bytes>, m: nat, n: nat)
    requires m < n <= |lines|
    ensures Offset(lines, m) < Offset(lines, n)
    decreases n
  {
    OffsetSucc(lines, n - 1);
    if m >= n - 1 {
    } else {
      OffsetMonotone(lines, m, n - 1);
    }
  }

  /** Offsets of earlier lines do not move when lines are added. */
  lemma OffsetStable(lines: seq<Bytes>, more: seq<Bytes>, n: nat)
    requires n <= |lines|
    ensures Offset(lines + more, n) == Offset(lines, n)
  {
    assert (lines + more)[..n] == lines[..n];
  }
}
