/** The last lines of a captured stream, found by scanning backward for newlines. */
module TrailingLines {

  newtype byte = x: int | 0 <= x < 256

  type Bytes = seq<byte>

  const NEWLINE: byte := 10

  /** The lines of `data`, each with its own newline; an unterminated last line is a line. */
  function Lines(data: Bytes): seq<Bytes> {
    LinesFrom(data, 0)
  }

  /** The lines of `data`, whose first `k` bytes are known to hold no newline. */
  function LinesFrom(data: Bytes, k: nat): seq<Bytes>
    requires k <= |data|
    decreases |data| + |data| - k
  {
    if k == |data| then if data == [] then [] else [data]
    else if data[k] == NEWLINE then [data[..k + 1]] + LinesFrom(data[k + 1..], 0)
    else LinesFrom(data, k + 1)
  }

  function Join(lines: seq<Bytes>): Bytes {
    if lines == [] then [] else lines[0] + Join(lines[1..])
  }

  function Last(lines: seq<Bytes>, n: nat): seq<Bytes> {
    if |lines| <= n then lines else lines[|lines| - n..]
  }

  function Newlines(data: Bytes): nat {
    if data == [] then 0
    else (if data[0] == NEWLINE then 1 else 0) + Newlines(data[1..])
  }

  predicate IsLine(line: Bytes) {
    line != [] && NEWLINE !in line[..|line| - 1]
  }

  /** What makes them the lines: joined they are the data, each is a line, and only the last
      can lack its newline. */
  lemma {:induction false} LinesOk(data: Bytes, k: nat)
    requires k <= |data| && NEWLINE !in data[..k]
    ensures var lines := LinesFrom(data, k);
            && Join(lines) == data
            && (forall line <- lines :: IsLine(line))
            && (forall i | 0 <= i < |lines| - 1 :: NEWLINE in lines[i])
    decreases |data| + |data| - k
  {
    if k == |data| {
      if data != [] { assert Join([data]) == data + Join([]); }
    } else if data[k] == NEWLINE {
      assert data[..k + 1][..k] == data[..k];
      LinesOk(data[k + 1..], 0);
      var rest := LinesFrom(data[k + 1..], 0);
      assert ([data[..k + 1]] + rest)[1..] == rest;
      assert data == data[..k + 1] + data[k + 1..];
    } else {
      assert data[..k + 1] == data[..k] + [data[k]];
      LinesOk(data, k + 1);
    }
  }

  lemma {:induction false} NewlinesOfConcat(a: Bytes, b: Bytes)
    ensures Newlines(a + b) == Newlines(a) + Newlines(b)
  {
    if a == [] {
      assert a + b == b;
    } else {
      assert (a + b)[1..] == a[1..] + b;
      NewlinesOfConcat(a[1..], b);
    }
  }

  lemma {:induction false} NoNewlines(data: Bytes)
    requires NEWLINE !in data
    ensures Newlines(data) == 0
  {
    if data != [] { NoNewlines(data[1..]); }
  }

  /** A newline before the last byte begins a new line after it; there are no others. */
  lemma {:induction false} LineCount(data: Bytes, k: nat)
    requires data != [] && k <= |data| && NEWLINE !in data[..k]
    ensures |LinesFrom(data, k)| == 1 + Newlines(data[..|data| - 1])
    decreases |data| + |data| - k
  {
    if k == |data| {
      assert data[..k] == data;
      NoNewlines(data[..|data| - 1]);
    } else if data[k] == NEWLINE {
      NoNewlines(data[..k]);
      var rest := data[k + 1..];
      if rest == [] {
        assert data[..|data| - 1] == data[..k];
      } else {
        LineCount(rest, 0);
        assert data[..|data| - 1] == data[..k] + ([data[k]] + rest[..|rest| - 1]);
        NewlinesOfConcat(data[..k], [data[k]] + rest[..|rest| - 1]);
      }
    } else {
      assert data[..k + 1] == data[..k] + [data[k]];
      LineCount(data, k + 1);
    }
  }

  /** Data can be cut after any newline. */
  lemma {:induction false} LinesOfConcat(a: Bytes, b: Bytes, k: nat)
    requires k < |a| && a[|a| - 1] == NEWLINE
    ensures LinesFrom(a + b, k) == LinesFrom(a, k) + LinesFrom(b, 0)
    decreases |a| + |a| - k
  {
    var data := a + b;
    if data[k] == NEWLINE {
      assert data[..k + 1] == a[..k + 1];
      assert data[k + 1..] == a[k + 1..] + b;
      if k + 1 == |a| {
        assert a[k + 1..] + b == b;
      } else {
        LinesOfConcat(a[k + 1..], b, 0);
      }
    } else {
      LinesOfConcat(a, b, k + 1);
    }
  }

  /** The newlines from index `lo` up to `hi`. */
  function NewlinesIn(data: Bytes, lo: nat, hi: nat): nat
    requires lo <= hi <= |data|
    decreases hi - lo
  {
    if lo == hi then 0 else (if data[lo] == NEWLINE then 1 else 0) + NewlinesIn(data, lo + 1, hi)
  }

  lemma {:induction false} NewlinesInSlice(data: Bytes, lo: nat, hi: nat)
    requires lo <= hi <= |data|
    ensures NewlinesIn(data, lo, hi) == Newlines(data[lo..hi])
    decreases hi - lo
  {
    if lo < hi {
      assert data[lo..hi][1..] == data[lo + 1..hi];
      NewlinesInSlice(data, lo + 1, hi);
    }
  }

  /** What the scan has counted when byte `i` comes up next. */
  ghost predicate Counted(data: Bytes, end: nat, i: int, count: nat) {
    -1 <= i < end <= |data| && count == NewlinesIn(data, i + 1, end)
  }

  lemma CountOn(data: Bytes, end: nat, i: nat, count: nat)
    requires Counted(data, end, i, count)
    ensures Counted(data, end, i - 1, if data[i] == NEWLINE then count + 1 else count)
  {}

  /** A scan that comes to the beginning has seen no more lines than asked for. */
  lemma CountedAll(data: Bytes, end: nat, n: nat, count: nat)
    requires data != [] && end == EndOf(data) && Counted(data, end, -1, count) && count < n
    ensures data == Join(Last(Lines(data), n))
  {
    assert data[0..][..|data| - 1] == data[..|data| - 1];
    NewlinesInSlice(data, 0, end);
    UpToEnd(data, end, 0);
    LineCount(data, 0);
    LinesOk(data, 0);
  }

  /** Where the scan begins: before a final newline. */
  function EndOf(data: Bytes): nat
    requires data != []
  {
    if data[|data| - 1] == NEWLINE then |data| - 1 else |data|
  }

  /** The scan returns the last `n` lines, or all of them if there are fewer. */
  method Trailing(data: Bytes, n: int) returns (tail: Bytes)
    ensures tail == if n <= 0 then [] else Join(Last(Lines(data), n))
  {
    if |data| == 0 || n <= 0 { return []; }
    var end := |data|;
    if data[|data| - 1] == NEWLINE { end := |data| - 1; }

    var count := 0;
    var i := end - 1;
    while i >= 0
      invariant Counted(data, end, i, count) && count < n
    {
      CountOn(data, end, i, count);
      if data[i] == NEWLINE {
        count := count + 1;
        if count == n {
          CutAfter(data, end, i, n);
          return data[i + 1..];
        }
      }
      i := i - 1;
    }
    CountedAll(data, end, n, count);
    return data;
  }

  /** Whether or not the final newline is skipped, the scan counts the newlines before the
      last byte. */
  lemma UpToEnd(data: Bytes, end: nat, from: nat)
    requires from < |data| && end == EndOf(data)
    ensures Newlines(data[from..end]) == Newlines(data[from..][..|data| - from - 1])
  {
    var before := data[from..|data| - 1];
    assert data[from..][..|data| - from - 1] == before;
    if end == |data| {
      assert data[from..end] == before + [data[|data| - 1]];
      NewlinesOfConcat(before, [data[|data| - 1]]);
    }
  }

  lemma LastOfConcat(xs: seq<Bytes>, ys: seq<Bytes>)
    ensures Last(xs + ys, |ys|) == ys
  {
    assert (xs + ys)[|xs|..] == ys;
  }

  lemma CutAfter(data: Bytes, end: nat, i: nat, n: nat)
    requires data != [] && end == EndOf(data)
    requires n > 0 && i < end && data[i] == NEWLINE && Counted(data, end, i, n - 1)
    ensures data[i + 1..] == Join(Last(Lines(data), n))
  {
    var a, b := data[..i + 1], data[i + 1..];
    assert |Lines(b)| == n by {
      NewlinesInSlice(data, i + 1, end);
      UpToEnd(data, end, i + 1);
      LineCount(b, 0);
    }
    assert Lines(data) == Lines(a) + Lines(b) by {
      assert data == a + b;
      LinesOfConcat(a, b, 0);
    }
    LastOfConcat(Lines(a), Lines(b));
    LinesOk(b, 0);
  }
}
