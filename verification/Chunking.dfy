/** Cutting a list of rows into chunks bounded in rows and in bytes. */
module Chunking {

  function Flatten<T>(chunks: seq<seq<T>>): seq<T> {
    if chunks == [] then [] else chunks[0] + Flatten(chunks[1..])
  }

  function Total<T>(size: T -> nat, rows: seq<T>): nat {
    if rows == [] then 0 else Total(size, rows[..|rows| - 1]) + size(rows[|rows| - 1])
  }

  datatype Limits = Limits(rows: nat, bytes: nat)

  /** Not empty, and within both bounds unless it is a single row. */
  predicate Bounded<T>(size: T -> nat, max: Limits, chunk: seq<T>) {
    chunk != [] && (|chunk| == 1 || (|chunk| <= max.rows && Total(size, chunk) <= max.bytes))
  }

  /** The row would not have fitted. */
  predicate Full<T>(size: T -> nat, max: Limits, chunk: seq<T>, next: T) {
    |chunk| + 1 > max.rows || Total(size, chunk) + size(next) > max.bytes
  }

  /** A chunk was closed because the first row of the next one did not fit. */
  predicate Follows<T>(size: T -> nat, max: Limits, chunk: seq<T>, next: seq<T>) {
    next != [] && Full(size, max, chunk, next[0])
  }

  predicate WellCut<T>(size: T -> nat, max: Limits, chunks: seq<seq<T>>) {
    forall i :: 0 <= i < |chunks| ==>
      Bounded(size, max, chunks[i]) && (i + 1 < |chunks| ==> Follows(size, max, chunks[i], chunks[i + 1]))
  }

  ghost predicate Chunked<T>(size: T -> nat, max: Limits, rows: seq<T>, chunks: seq<seq<T>>) {
    Flatten(chunks) == rows && WellCut(size, max, chunks)
  }

  lemma {:induction false} FlattenSnoc<T>(chunks: seq<seq<T>>, c: seq<T>)
    ensures Flatten(chunks + [c]) == Flatten(chunks) + c
  {
    if chunks == [] {
      assert chunks + [c] == [c];
    } else {
      assert (chunks + [c])[1..] == chunks[1..] + [c];
      FlattenSnoc(chunks[1..], c);
    }
  }

  /** The state between two rows: the open chunk, if any, may be closed at any time. */
  ghost predicate Open<T>(size: T -> nat, max: Limits, rows: seq<T>, chunks: seq<seq<T>>, chunk: seq<T>) {
    if chunk == [] then rows == [] && chunks == [] else Chunked(size, max, rows, chunks + [chunk])
  }

  lemma RowFits<T>(size: T -> nat, max: Limits, rows: seq<T>, chunks: seq<seq<T>>, chunk: seq<T>, row: T)
    requires Open(size, max, rows, chunks, chunk) && (chunk == [] || !Full(size, max, chunk, row))
    ensures Open(size, max, rows + [row], chunks, chunk + [row])
  {
    var grown := chunk + [row];
    FlattenSnoc(chunks, chunk);
    FlattenSnoc(chunks, grown);
    assert grown[..|chunk|] == chunk;
    var was, now := chunks + [chunk], chunks + [grown];
    forall i | 0 <= i < |now|
      ensures Bounded(size, max, now[i]) && (i + 1 < |now| ==> Follows(size, max, now[i], now[i + 1]))
    {
      if i < |chunks| {
        assert was[i] == now[i] && chunk != [] && grown[0] == chunk[0];
        assert Bounded(size, max, was[i]) && Follows(size, max, was[i], was[i + 1]);
      } else if chunk != [] {
        assert Bounded(size, max, was[i]);
      }
    }
  }

  lemma RowOpensChunk<T>(size: T -> nat, max: Limits, rows: seq<T>, chunks: seq<seq<T>>, chunk: seq<T>, row: T)
    requires Open(size, max, rows, chunks, chunk) && chunk != [] && Full(size, max, chunk, row)
    ensures Open(size, max, rows + [row], chunks + [chunk], [row])
  {
    FlattenSnoc(chunks, chunk);
    FlattenSnoc(chunks + [chunk], [row]);
    var was, now := chunks + [chunk], chunks + [chunk] + [[row]];
    forall i | 0 <= i < |now|
      ensures Bounded(size, max, now[i]) && (i + 1 < |now| ==> Follows(size, max, now[i], now[i + 1]))
    {
      if i < |was| {
        assert was[i] == now[i];
        assert Bounded(size, max, was[i]);
      }
    }
  }

  method Chunks<T>(rows: seq<T>, size: T -> nat, max: Limits) returns (chunks: seq<seq<T>>)
    ensures Chunked(size, max, rows, chunks)
  {
    chunks := [];
    var chunk: seq<T> := [];
    var curRows, curBytes := 0, 0;
    for i := 0 to |rows|
      invariant Open(size, max, rows[..i], chunks, chunk)
      invariant curRows == |chunk| && curBytes == Total(size, chunk)
    {
      assert rows[..i + 1] == rows[..i] + [rows[i]];
      var s := size(rows[i]);
      if chunk != [] && (curRows + 1 > max.rows || curBytes + s > max.bytes) {
        RowOpensChunk(size, max, rows[..i], chunks, chunk, rows[i]);
        chunks := chunks + [chunk];
        chunk, curRows, curBytes := [], 0, 0;
      } else {
        RowFits(size, max, rows[..i], chunks, chunk, rows[i]);
      }
      assert (chunk + [rows[i]])[..|chunk|] == chunk;
      chunk := chunk + [rows[i]];
      curRows, curBytes := curRows + 1, curBytes + s;
    }
    assert rows[..|rows|] == rows;
    if chunk != [] {
      chunks := chunks + [chunk];
    }
  }

  // ---------------------------------------------------------------- the specification is exact

  lemma {:induction false} TotalGrows<T>(size: T -> nat, rows: seq<T>, n: nat)
    requires n <= |rows|
    ensures Total(size, rows[..n]) <= Total(size, rows)
    decreases |rows|
  {
    if n < |rows| {
      assert rows[..|rows| - 1][..n] == rows[..n];
      TotalGrows(size, rows[..|rows| - 1], n);
    } else {
      assert rows[..n] == rows;
    }
  }

  /** A bounded chunk runs on only past rows that fit. */
  lemma TakesOnlyWhatFits<T>(size: T -> nat, max: Limits, rows: seq<T>, chunk: seq<T>, n: nat)
    requires Bounded(size, max, chunk) && chunk <= rows && 0 < n < |rows|
    ensures n < |chunk| ==> !Full(size, max, rows[..n], rows[n])
  {
    if n < |chunk| {
      TotalGrows(size, chunk, n + 1);
      assert chunk[..n + 1] == rows[..n + 1] && rows[..n + 1][..n] == rows[..n];
    }
  }

  lemma FirstChunk<T>(size: T -> nat, max: Limits, rows: seq<T>, a: seq<seq<T>>)
    requires Chunked(size, max, rows, a)
    ensures a == [] <==> rows == []
    ensures a != [] ==> a[0] != [] && a[0] <= rows && Chunked(size, max, rows[|a[0]|..], a[1..])
    ensures a != [] && |a[0]| < |rows| ==> Full(size, max, a[0], rows[|a[0]|])
  {
    if a != [] {
      assert Bounded(size, max, a[0]);
      assert rows[|a[0]|..] == Flatten(a[1..]);
      if |a| > 1 {
        assert Follows(size, max, a[0], a[1]);
        assert Flatten(a[1..])[0] == a[1][0];
      }
    }
  }

  lemma FirstIsLongest<T>(size: T -> nat, max: Limits, rows: seq<T>, a: seq<seq<T>>, b: seq<seq<T>>)
    requires Chunked(size, max, rows, a) && Chunked(size, max, rows, b) && rows != []
    ensures a != [] && b != [] && |b[0]| <= |a[0]|
  {
    FirstChunk(size, max, rows, a);
    FirstChunk(size, max, rows, b);
    assert Bounded(size, max, b[0]);
    var n := |a[0]|;
    if n < |rows| {
      TakesOnlyWhatFits(size, max, rows, b[0], n);
      assert rows[..n] == a[0];
    }
  }

  /** Order, bounds and fullness fix the chunks: there is only one way to cut. */
  lemma {:induction false} OneWayToCut<T>(size: T -> nat, max: Limits, rows: seq<T>, a: seq<seq<T>>, b: seq<seq<T>>)
    requires Chunked(size, max, rows, a) && Chunked(size, max, rows, b)
    ensures a == b
    decreases |rows|
  {
    FirstChunk(size, max, rows, a);
    FirstChunk(size, max, rows, b);
    if rows == [] {
    } else {
      FirstIsLongest(size, max, rows, a, b);
      FirstIsLongest(size, max, rows, b, a);
      assert a[0] == b[0];
      OneWayToCut(size, max, rows[|a[0]|..], a[1..], b[1..]);
      assert a == [a[0]] + a[1..] && b == [b[0]] + b[1..];
    }
  }
}
