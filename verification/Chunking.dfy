/** Overlapping windows over a normalized text. */
module Chunking {
  function Min(a: int, b: int): int { if a < b then a else b }

  function Max(a: int, b: int): int { if a < b then b else a }

  // ---------------------------------------------------------------- when the loop ends

  /** One turn of the loop on a text of length `n`: where the next window starts, or
      nothing once the loop is over. */
  datatype Turn = Over | Next(start: int)

  function TurnFrom(n: nat, size: int, overlap: int, start: int): Turn {
    if start >= n then Over
    else if Min(n, start + size) >= n then Over
    else Next(Max(0, Min(n, start + size) - overlap))
  }

  /** The loop, started at `start`, is over within `k` turns. */
  predicate OverWithin(n: nat, size: int, overlap: int, start: int, k: nat)
    decreases k
  {
    match TurnFrom(n, size, overlap, start)
    case Over => true
    case Next(next) => k > 0 && OverWithin(n, size, overlap, next, k - 1)
  }

  ghost predicate Terminates(n: nat, size: int, overlap: int) {
    exists k: nat :: OverWithin(n, size, overlap, 0, k)
  }

  /** With an overlap as large as the window, a long text is never left behind: every turn
      starts at the beginning again. */
  lemma {:induction false} StuckAtStart(n: nat, size: int, overlap: int, k: nat)
    requires n > 0 && n > size && overlap >= size
    ensures !OverWithin(n, size, overlap, 0, k)
  {
    if k > 0 {
      StuckAtStart(n, size, overlap, k - 1);
    }
  }

  lemma {:induction false} Advances(n: nat, size: int, overlap: int, start: int, k: nat)
    requires overlap < size && start >= 0 && k >= n - start
    ensures OverWithin(n, size, overlap, start, k)
    decreases k
  {
    match TurnFrom(n, size, overlap, start)
    case Over =>
    case Next(next) => Advances(n, size, overlap, next, k - 1);
  }

  /** Exactly when chunking comes to an end, for all window sizes and overlaps. */
  lemma TerminatesIff(n: nat, size: int, overlap: int)
    ensures Terminates(n, size, overlap) <==> n == 0 || n <= size || overlap < size
  {
    if n == 0 || n <= size {
      assert OverWithin(n, size, overlap, 0, 0);
    } else if overlap < size {
      Advances(n, size, overlap, 0, n);
    } else {
      forall k: nat ensures !OverWithin(n, size, overlap, 0, k) {
        StuckAtStart(n, size, overlap, k);
      }
    }
  }

  // ---------------------------------------------------------------- what it produces

  /** A slice from `start` to `end`; a negative end counts from the end of the text, and a
      slice that ends before it starts is empty. */
  function Slice(text: string, start: nat, end: int): string {
    var stop := if end < 0 then Max(0, |text| + end) else Min(|text|, end);
    if start < stop then text[start..stop] else ""
  }

  /** The windows from `start` on. */
  function Windows(text: string, size: int, overlap: int, start: nat): (chunks: seq<string>)
    requires overlap < size
    decreases |text| - start
  {
    if start >= |text| then []
    else if start + size >= |text| then [Slice(text, start, |text|)]
    else [Slice(text, start, start + size)] + Windows(text, size, overlap, start + size - overlap)
  }

  lemma WindowsStep(text: string, size: int, overlap: int, start: nat)
    requires overlap < size && start < |text|
    ensures Windows(text, size, overlap, start) == [Slice(text, start, Min(|text|, start + size))] +
      if start + size >= |text| then [] else Windows(text, size, overlap, start + size - overlap)
  {
  }

  function Chunks(text: string, size: int, overlap: int): seq<string>
    requires text == "" || |text| <= size || overlap < size
  {
    if text == "" then []
    else if |text| <= size then [text]
    else Windows(text, size, overlap, 0)
  }

  /** The source's loop, for all integers; the precondition is exactly that it ends. */
  method ChunkText(text: string, size: int, overlap: int) returns (chunks: seq<string>)
    requires text == "" || |text| <= size || overlap < size
    ensures chunks == Chunks(text, size, overlap)
  {
    if text == "" {
      return [];
    }
    if |text| <= size {
      return [text];
    }
    chunks := [];
    var start := 0;
    ghost var all := Windows(text, size, overlap, 0);
    while start < |text|
      invariant start >= 0
      invariant all == chunks + Windows(text, size, overlap, start)
      decreases |text| - start
    {
      var end := Min(|text|, start + size);
      WindowsStep(text, size, overlap, start);
      chunks := chunks + [Slice(text, start, end)];
      if end >= |text| {
        break;
      }
      start := Max(0, end - overlap);
    }
  }

  /** Where window `i` starts if the first one starts at `start`. */
  function StartOf(start: int, step: int, i: nat): int
    decreases i
  {
    if i == 0 then start else StartOf(start + step, step, i - 1)
  }

  lemma {:induction false} StartOfIs(start: int, step: int, i: nat)
    ensures StartOf(start, step, i) == start + i * step
    decreases i
  {
    if i > 0 {
      StartOfIs(start + step, step, i - 1);
      assert i * step == step + (i - 1) * step;
    }
  }

  /** Every window, for all integers for which the loop ends. */
  lemma {:induction false} WindowAt(text: string, size: int, overlap: int, start: nat, i: nat)
    requires overlap < size && i < |Windows(text, size, overlap, start)|
    ensures var from := StartOf(start, size - overlap, i);
      0 <= from < |text| && Windows(text, size, overlap, start)[i] == Slice(text, from, Min(|text|, from + size))
    decreases i
  {
    WindowsStep(text, size, overlap, start);
    if i > 0 {
      WindowAt(text, size, overlap, start + size - overlap, i - 1);
    }
  }

  /** Whether the character at `p` lies in window `i`. */
  predicate InWindow(text: string, size: int, overlap: int, i: nat, p: nat)
    requires overlap < size
  {
    && i < |Windows(text, size, overlap, 0)|
    && StartOf(0, size - overlap, i) <= p < Min(|text|, StartOf(0, size - overlap, i) + size)
  }

  lemma {:induction false} Covering(text: string, size: nat, overlap: nat, start: nat, p: nat) returns (i: nat)
    requires overlap < size && start <= p < |text|
    ensures i < |Windows(text, size, overlap, start)|
    ensures StartOf(start, size - overlap, i) <= p < Min(|text|, StartOf(start, size - overlap, i) + size)
    decreases |text| - start
  {
    if p < start + size {
      i := 0;
    } else {
      var j := Covering(text, size, overlap, start + size - overlap, p);
      i := j + 1;
    }
  }

  lemma GapAfterFirst(text: string, size: nat, overlap: int, i: nat)
    requires overlap < 0 && size < |text|
    ensures !InWindow(text, size, overlap, i, size)
  {
    if i > 0 {
      StartOfIs(0, size - overlap, i);
      MulAtLeast(i, size - overlap);
    }
  }

  ghost predicate Covered(text: string, size: int, overlap: int, p: nat)
    requires overlap < size
  {
    exists i: nat :: InWindow(text, size, overlap, i, p)
  }

  /** Chunking a text longer than the window keeps every character exactly when the overlap
      is not negative. */
  lemma CoversIff(text: string, size: nat, overlap: int)
    requires overlap < size < |text|
    ensures (forall p: nat | p < |text| :: Covered(text, size, overlap, p)) <==> overlap >= 0
  {
    if overlap >= 0 {
      forall p: nat | p < |text| ensures Covered(text, size, overlap, p) {
        var i := Covering(text, size, overlap, 0, p);
        assert InWindow(text, size, overlap, i, p);
      }
    } else {
      forall i: nat ensures !InWindow(text, size, overlap, i, size) {
        GapAfterFirst(text, size, overlap, i);
      }
      assert !Covered(text, size, overlap, size);
    }
  }

  predicate Bounded(chunks: seq<string>, size: nat) {
    forall i :: 0 <= i < |chunks| ==> 0 < |chunks[i]| <= size
  }

  /** A full window, and a next one that begins with its last `overlap` characters. */
  predicate Overlaps(x: string, y: string, size: nat, overlap: nat) {
    overlap <= size == |x| && overlap < |y| && x[size - overlap..] == y[..overlap]
  }

  predicate Chained(chunks: seq<string>, size: nat, overlap: nat) {
    forall i :: 0 < i < |chunks| ==> Overlaps(chunks[i - 1], chunks[i], size, overlap)
  }

  /** Put the text together again: drop the shared beginning of every later chunk. */
  function Rebuild(chunks: seq<string>, overlap: nat): string {
    if chunks == [] then ""
    else if |chunks| == 1 then chunks[0]
    else
      var last := chunks[|chunks| - 1];
      Rebuild(chunks[..|chunks| - 1], overlap) + if overlap <= |last| then last[overlap..] else ""
  }

  function CeilDiv(a: nat, b: nat): nat
    requires b > 0
  {
    (a + b - 1) / b
  }

  lemma MulAtLeast(d: int, b: int)
    requires d >= 1 && b > 0
    ensures d * b >= b
  {
  }

  lemma SmallMultiple(d: int, b: int)
    requires -b < d * b < b
    ensures d == 0
  {
    if d >= 1 {
      MulAtLeast(d, b);
    } else if d <= -1 {
      MulAtLeast(-d, b);
    }
  }

  lemma DivIs(x: nat, b: nat, q: nat, r: nat)
    requires r < b && x == q * b + r
    ensures x / b == q
  {
    var d := x / b - q;
    assert x == (x / b) * b + x % b;
    assert d * b == r - x % b;
    SmallMultiple(d, b);
  }

  lemma DivStep(x: nat, b: nat)
    requires b > 0
    ensures (x + b) / b == x / b + 1
  {
    assert x == (x / b) * b + x % b;
    assert (x / b + 1) * b == (x / b) * b + b;
    DivIs(x + b, b, x / b + 1, x % b);
  }

  lemma CeilStep(a: nat, b: nat)
    requires b > 0 && a > 0
    ensures a <= b ==> CeilDiv(a, b) == 1
    ensures a > b ==> CeilDiv(a, b) == 1 + CeilDiv(a - b, b)
  {
    DivStep(a - 1, b);
    if a <= b {
      DivIs(a - 1, b, 0, a - 1);
    }
  }

  lemma ChainedFirst(first: string, rest: seq<string>, size: nat, overlap: nat)
    requires rest != [] && Chained(rest, size, overlap) && Overlaps(first, rest[0], size, overlap)
    ensures Chained([first] + rest, size, overlap)
  {
    var all := [first] + rest;
    forall i | 0 < i < |all| ensures Overlaps(all[i - 1], all[i], size, overlap) {
      if i > 1 {
        assert Overlaps(rest[i - 2], rest[i - 1], size, overlap);
      }
    }
  }

  lemma FirstWindow(text: string, size: nat, overlap: nat, start: nat)
    requires overlap < size && start < |text|
    ensures var chunks := Windows(text, size, overlap, start);
      chunks != [] && chunks[0] == text[start..Min(|text|, start + size)]
  {
  }

  lemma BoundedFirst(first: string, rest: seq<string>, size: nat)
    requires 0 < |first| <= size && Bounded(rest, size)
    ensures Bounded([first] + rest, size)
  {
  }

  /** Two windows in succession. */
  lemma NextOverlaps(text: string, size: nat, overlap: nat, start: nat)
    requires overlap < size && start + size < |text|
    ensures var next := start + size - overlap;
      Overlaps(text[start..start + size], text[next..Min(|text|, next + size)], size, overlap)
  {
    var next := start + size - overlap;
    assert text[start..start + size][size - overlap..] == text[next..next + overlap];
    assert text[next..Min(|text|, next + size)][..overlap] == text[next..next + overlap];
  }

  lemma {:induction false} WindowsShape(text: string, size: nat, overlap: nat, start: nat)
    requires overlap < size && start < |text|
    ensures Bounded(Windows(text, size, overlap, start), size)
    ensures Chained(Windows(text, size, overlap, start), size, overlap)
    decreases |text| - start
  {
    FirstWindow(text, size, overlap, start);
    WindowsStep(text, size, overlap, start);
    if start + size < |text| {
      var next := start + size - overlap;
      var first, rest := text[start..start + size], Windows(text, size, overlap, next);
      WindowsShape(text, size, overlap, next);
      FirstWindow(text, size, overlap, next);
      NextOverlaps(text, size, overlap, start);
      ChainedFirst(first, rest, size, overlap);
      BoundedFirst(first, rest, size);
    }
  }

  /** As many chunks as the overlap calls for. */
  lemma {:induction false} WindowsCount(text: string, size: nat, overlap: nat, start: nat)
    requires overlap < size && start + overlap < |text|
    ensures |Windows(text, size, overlap, start)| == CeilDiv(|text| - start - overlap, size - overlap)
    decreases |text| - start
  {
    CeilStep(|text| - start - overlap, size - overlap);
    if start + size < |text| {
      WindowsCount(text, size, overlap, start + size - overlap);
    }
  }

  lemma RebuildSnoc(init: seq<string>, last: string, overlap: nat)
    requires init != []
    ensures Rebuild(init + [last], overlap) ==
      Rebuild(init, overlap) + if overlap <= |last| then last[overlap..] else ""
  {
    assert (init + [last])[..|init|] == init;
  }

  lemma {:induction false} RebuildFirst(first: string, rest: seq<string>, overlap: nat)
    requires rest != [] && forall i :: 0 <= i < |rest| ==> overlap <= |rest[i]|
    ensures overlap <= |Rebuild(rest, overlap)|
    ensures Rebuild([first] + rest, overlap) == first + Rebuild(rest, overlap)[overlap..]
    decreases |rest|
  {
    var init, last := rest[..|rest| - 1], rest[|rest| - 1];
    assert rest == init + [last];
    if init == [] {
      RebuildSnoc([first], last, overlap);
      assert Rebuild([first], overlap) == first && Rebuild([last], overlap) == last;
      assert [first] + rest == [first] + [last];
    } else {
      RebuildFirst(first, init, overlap);
      RebuildSnoc(init, last, overlap);
      RebuildSnoc([first] + init, last, overlap);
      assert [first] + rest == ([first] + init) + [last];
    }
  }

  lemma {:induction false} WindowsRebuild(text: string, size: nat, overlap: nat, start: nat)
    requires overlap < size && start < |text| && start + overlap <= |text|
    ensures Rebuild(Windows(text, size, overlap, start), overlap) == text[start..]
    decreases |text| - start
  {
    WindowsStep(text, size, overlap, start);
    if start + size < |text| {
      var next := start + size - overlap;
      var first, rest := text[start..start + size], Windows(text, size, overlap, next);
      WindowsRebuild(text, size, overlap, next);
      WindowsLongEnough(text, size, overlap, next);
      FirstWindow(text, size, overlap, next);
      RebuildFirst(first, rest, overlap);
      SlicesMeet(text, start, size, overlap);
    } else {
      assert Rebuild([text[start..]], overlap) == text[start..];
    }
  }

  lemma SlicesMeet(text: string, start: nat, size: nat, overlap: nat)
    requires overlap < size && start + size <= |text|
    ensures text[start..start + size] + text[start + size - overlap..][overlap..] == text[start..]
  {
  }

  lemma {:induction false} WindowsLongEnough(text: string, size: nat, overlap: nat, start: nat)
    requires overlap < size && start + overlap <= |text|
    ensures forall i :: 0 <= i < |Windows(text, size, overlap, start)| ==>
      overlap <= |Windows(text, size, overlap, start)[i]|
    decreases |text| - start
  {
    if start + size < |text| {
      WindowsLongEnough(text, size, overlap, start + size - overlap);
    }
  }

  /** All that chunking promises, for every text and every overlap below the window size:
      bounded windows, exact overlaps, nothing lost, and the exact number of chunks. */
  lemma ChunkingTheorem(text: string, size: nat, overlap: nat)
    requires overlap < size
    ensures var chunks := Chunks(text, size, overlap);
      && Bounded(chunks, size) && Chained(chunks, size, overlap) && Rebuild(chunks, overlap) == text
      && (|text| > size ==> |chunks| == CeilDiv(|text| - overlap, size - overlap))
  {
    if |text| > size {
      WindowsShape(text, size, overlap, 0);
      WindowsCount(text, size, overlap, 0);
      WindowsRebuild(text, size, overlap, 0);
      assert text[0..] == text;
    }
  }
}
