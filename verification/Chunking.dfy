/**
 The document chunker (src/app/domain/chunking.py): overlapping windows of a
 stripped text, as a loop, against the closed form of the windows it must yield.
 */
module Chunking {
  import opened Wrappers

  datatype Chunk = Chunk(index: nat, start: nat, end: nat, text: string)

  // ------------------------------------------------------------------ strip

  /** The code points Python's `str.strip` removes. */
  const SPACES: set<int> := {
    0x09, 0x0a, 0x0b, 0x0c, 0x0d, 0x1c, 0x1d, 0x1e, 0x1f, 0x20, 0x85, 0xa0, 0x1680,
    0x2000, 0x2001, 0x2002, 0x2003, 0x2004, 0x2005, 0x2006, 0x2007, 0x2008, 0x2009, 0x200a,
    0x2028, 0x2029, 0x202f, 0x205f, 0x3000
  }

  predicate IsSpace(c: char) { c as int in SPACES }

  function LeftStrip(s: string): (r: string)
    ensures r == [] || !IsSpace(r[0])
    ensures |r| <= |s| && r == s[|s| - |r|..]
    ensures forall i :: 0 <= i < |s| - |r| ==> IsSpace(s[i])
  {
    if s != [] && IsSpace(s[0]) then LeftStrip(s[1..]) else s
  }

  function RightStrip(s: string): (r: string)
    ensures r == [] || !IsSpace(r[|r| - 1])
    ensures |r| <= |s| && r == s[..|r|]
    ensures forall i :: |r| <= i < |s| ==> IsSpace(s[i])
  {
    if s != [] && IsSpace(s[|s| - 1]) then RightStrip(s[..|s| - 1]) else s
  }

  function Strip(s: string): string {
    RightStrip(LeftStrip(s))
  }

  /** `r` is what is left of `s` without the white space at its two ends. */
  predicate Trimmed(s: string, at: nat, r: string) {
    && at + |r| <= |s| && r == s[at..at + |r|]
    && (forall i :: 0 <= i < at ==> IsSpace(s[i]))
    && (forall i :: at + |r| <= i < |s| ==> IsSpace(s[i]))
    && (r != [] ==> !IsSpace(r[0]) && !IsSpace(r[|r| - 1]))
  }

  lemma TrimBothEnds(s: string, l: string, r: string, at: nat)
    requires at + |l| == |s| && l == s[at..] && (l == [] || !IsSpace(l[0]))
    requires forall i :: 0 <= i < at ==> IsSpace(s[i])
    requires |r| <= |l| && r == l[..|r|] && (r == [] || !IsSpace(r[|r| - 1]))
    requires forall i :: |r| <= i < |l| ==> IsSpace(l[i])
    ensures Trimmed(s, at, r)
  {
    forall i | at + |r| <= i < |s| ensures IsSpace(s[i]) { assert l[i - at] == s[i]; }
    if r != [] { assert r[0] == l[0]; }
  }

  /** Stripping trims the text, and there is no other way to trim it. */
  lemma StripTrims(s: string) returns (at: nat)
    ensures Trimmed(s, at, Strip(s))
    ensures forall a: nat, r :: Trimmed(s, a, r) ==> r == Strip(s)
  {
    var l := LeftStrip(s);
    at := |s| - |l|;
    TrimBothEnds(s, l, RightStrip(l), at);
    forall a: nat, r | Trimmed(s, a, r) ensures r == Strip(s) {
      TrimmedIsUnique(s, a, r, at, Strip(s));
    }
  }

  /** There is only one way to trim a text. */
  lemma TrimmedIsUnique(s: string, a: nat, q: string, b: nat, r: string)
    requires Trimmed(s, a, q) && Trimmed(s, b, r)
    ensures q == r
  {
    if q != [] {
      assert !IsSpace(s[a]) && !IsSpace(s[a + |q| - 1]);
    }
    if r != [] {
      assert !IsSpace(s[b]) && !IsSpace(s[b + |r| - 1]);
    }
  }

  // -------------------------------------------------------- the closed form

  /** How many windows cover a text of this length. */
  function WindowCount(length: nat, size: nat, overlap: nat): (n: nat)
    requires 0 <= overlap < size
    ensures length > 0 <==> n > 0
  {
    if length == 0 then 0
    else if length <= size then 1
    else 1 + (length - size + (size - overlap) - 1) / (size - overlap)
  }

  function Window(s: string, size: nat, overlap: nat, i: nat): Chunk
    requires 0 <= overlap < size && i * (size - overlap) <= |s|
  {
    var start := i * (size - overlap);
    var end := if start + size < |s| then start + size else |s|;
    Chunk(i, start, end, s[start..end])
  }

  /** Window `i` starts inside the text and, unless it is the last, ends before its end. */
  lemma WindowFits(length: nat, size: nat, overlap: nat, i: nat)
    requires 0 <= overlap < size && i < WindowCount(length, size, overlap)
    ensures i * (size - overlap) < length
    ensures i > 0 ==> i * (size - overlap) + overlap < length
    ensures i * (size - overlap) + size >= length <==> i == WindowCount(length, size, overlap) - 1
  {
    var stride := size - overlap;
    if length > size {
      var q := (length - size + stride - 1) / stride;
      DivBounds(length - size + stride - 1, stride);
      assert q * stride <= length - size + stride - 1 < (q + 1) * stride;
      MulMonotone(i, q, stride);
      if i < q { MulMonotone(i + 1, q, stride); }
    }
  }

  lemma DivBounds(a: nat, b: nat)
    requires b > 0
    ensures a / b * b <= a < (a / b + 1) * b
  {
  }

  lemma MulMonotone(a: nat, b: nat, k: nat)
    ensures a <= b ==> a * k <= b * k
    ensures (a + 1) * k == a * k + k
  {
  }

  predicate ValidParams(size: int, overlap: int) {
    size > 0 && 0 <= overlap < size
  }

  /** The chunks are the windows of `s`, all of them, in order. */
  predicate AreWindows(s: string, size: nat, overlap: nat, chunks: seq<Chunk>)
    requires 0 <= overlap < size
  {
    && |chunks| == WindowCount(|s|, size, overlap)
    && forall i :: 0 <= i < |chunks| ==> IsWindow(s, size, overlap, i, chunks[i])
  }

  predicate IsWindow(s: string, size: nat, overlap: nat, i: nat, k: Chunk)
    requires 0 <= overlap < size
  {
    i * (size - overlap) <= |s| && k == Window(s, size, overlap, i)
  }

  function FirstWindows(s: string, size: nat, overlap: nat, n: nat): (chunks: seq<Chunk>)
    requires 0 <= overlap < size && n <= WindowCount(|s|, size, overlap)
    ensures |chunks| == n && forall i :: 0 <= i < n ==> IsWindow(s, size, overlap, i, chunks[i])
  {
    if n == 0 then []
    else
      WindowFits(|s|, size, overlap, n - 1);
      FirstWindows(s, size, overlap, n - 1) + [Window(s, size, overlap, n - 1)]
  }

  /** All windows of `s`, as a list. */
  function WindowsOf(s: string, size: nat, overlap: nat): (chunks: seq<Chunk>)
    requires 0 <= overlap < size
    ensures AreWindows(s, size, overlap, chunks)
  {
    FirstWindows(s, size, overlap, WindowCount(|s|, size, overlap))
  }

  /** Chunk number `i`: its place, and the text there. */
  predicate IsChunk(s: string, size: nat, overlap: nat, i: nat, k: Chunk)
    requires overlap < size
  {
    && k.index == i && k.start == i * (size - overlap)
    && k.end == (if k.start + size <= |s| then k.start + size else |s|)
    && k.start <= k.end && k.text == s[k.start..k.end]
  }

  lemma WindowsAreChunks(s: string, size: nat, overlap: nat, chunks: seq<Chunk>)
    requires 0 <= overlap < size && AreWindows(s, size, overlap, chunks)
    ensures forall i :: 0 <= i < |chunks| ==> IsChunk(s, size, overlap, i, chunks[i])
  {
    forall i | 0 <= i < |chunks| ensures IsChunk(s, size, overlap, i, chunks[i]) {
      assert IsWindow(s, size, overlap, i, chunks[i]);
    }
  }

  /** The loop yields exactly the windows of the stripped text, and only ever leaves by its break. */
  method ChunkText(text: string, size: int, overlap: int) returns (r: Result<seq<Chunk>, string>, ghost broke: bool)
    ensures r.Ok? <==> size > 0 && 0 <= overlap < size
    ensures r.Ok? ==> r.value == WindowsOf(Strip(text), size, overlap)
    ensures r.Ok? ==> var s, stride := Strip(text), size - overlap;
                      |r.value| == if |s| == 0 then 0 else if |s| <= size then 1
                        else 1 + (|s| - size + stride - 1) / stride
    ensures r.Ok? ==> forall i :: 0 <= i < |r.value| ==> IsChunk(Strip(text), size, overlap, i, r.value[i])
    ensures r.Ok? && r.value != [] ==> broke
  {
    broke := false;
    if size <= 0 { return Err("size must be positive"), broke; }
    if !(0 <= overlap < size) { return Err("overlap must satisfy 0 <= overlap < size"), broke; }
    var stripped := Strip(text);
    if stripped == "" { return Ok([]), broke; }
    var chunks;
    chunks, broke := Slide(stripped, size, overlap);
    OnlyOneChunking(stripped, size, overlap, chunks);
    WindowsAreChunks(stripped, size, overlap, chunks);
    r := Ok(chunks);
  }

  /** The loop: windows slide over the stripped text until one reaches its end. */
  method Slide(stripped: string, size: nat, overlap: nat) returns (chunks: seq<Chunk>, ghost broke: bool)
    requires 0 <= overlap < size && stripped != ""
    ensures AreWindows(stripped, size, overlap, chunks) && broke
  {
    broke := false;
    var stride := size - overlap;
    chunks := [];
    var start, index, length := 0, 0, |stripped|;
    while start < length
      invariant |chunks| == index < WindowCount(length, size, overlap) && start == index * stride
      invariant forall i :: 0 <= i < index ==> IsWindow(stripped, size, overlap, i, chunks[i])
      decreases length - start
    {
      WindowFits(length, size, overlap, index);
      var end := if start + size <= length then start + size else length;
      chunks := chunks + [Chunk(index, start, end, stripped[start..end])];
      if end == length {
        broke := true;
        break;
      }
      MulMonotone(index, index, stride);
      start := start + stride;
      index := index + 1;
    }
    if !broke {
      WindowFits(length, size, overlap, index);
      assert false;
    }
  }

  lemma OnlyOneChunking(s: string, size: nat, overlap: nat, chunks: seq<Chunk>)
    requires 0 <= overlap < size && AreWindows(s, size, overlap, chunks)
    ensures chunks == WindowsOf(s, size, overlap)
  {
    var windows := WindowsOf(s, size, overlap);
    forall i | 0 <= i < |chunks| ensures chunks[i] == windows[i] {
      assert IsWindow(s, size, overlap, i, chunks[i]) && IsWindow(s, size, overlap, i, windows[i]);
    }
  }

  // ------------------------------------------------------------- round trip

  /** The first `n` chunks put back together: each later one without its first `overlap` characters. */
  function Rebuild(chunks: seq<Chunk>, overlap: nat, n: nat): string
    requires n <= |chunks|
  {
    if n == 0 then ""
    else if n == 1 then chunks[0].text
    else
      var last := chunks[n - 1].text;
      Rebuild(chunks, overlap, n - 1) + if overlap <= |last| then last[overlap..] else ""
  }

  /** Neighbours share exactly `overlap` characters, and no chunk is lost in its overlap. */
  lemma NeighboursOverlap(s: string, size: nat, overlap: nat, chunks: seq<Chunk>, i: nat)
    requires 0 <= overlap < size && AreWindows(s, size, overlap, chunks) && i + 1 < |chunks|
    ensures chunks[i].end == chunks[i + 1].start + overlap
    ensures |chunks[i].text| == size && |chunks[i + 1].text| > overlap
    ensures chunks[i].text[size - overlap..] == chunks[i + 1].text[..overlap]
  {
    assert IsWindow(s, size, overlap, i, chunks[i]) && IsWindow(s, size, overlap, i + 1, chunks[i + 1]);
    WindowFits(|s|, size, overlap, i);
    WindowFits(|s|, size, overlap, i + 1);
    MulMonotone(i, i, size - overlap);
    var a, b := chunks[i], chunks[i + 1];
    assert a.start + (size - overlap) == b.start && a.end == a.start + size;
    assert a.text[size - overlap..] == s[b.start..a.end];
    assert b.text[..overlap] == s[b.start..b.start + overlap];
  }

  lemma ChunkIsSlice(s: string, size: nat, overlap: nat, chunks: seq<Chunk>, i: nat)
    requires 0 <= overlap < size && AreWindows(s, size, overlap, chunks) && i < |chunks|
    ensures IsSlice(s, chunks[i])
    ensures i == 0 ==> chunks[i].start == 0
    ensures i == |chunks| - 1 ==> chunks[i].end == |s|
  {
    assert IsWindow(s, size, overlap, i, chunks[i]);
    WindowFits(|s|, size, overlap, i);
  }

  predicate IsSlice(s: string, k: Chunk) {
    k.start <= k.end <= |s| && k.text == s[k.start..k.end]
  }

  /** Slices from the start of `s`, each reaching `overlap` characters back into its predecessor. */
  ghost predicate Chained(s: string, overlap: nat, chunks: seq<Chunk>) {
    && (forall i :: 0 <= i < |chunks| ==> IsSlice(s, chunks[i]))
    && (chunks != [] ==> chunks[0].start == 0)
    && (forall i, k :: 0 <= i < k < |chunks| && k == i + 1 ==>
          chunks[i].end == chunks[k].start + overlap && |chunks[k].text| > overlap)
  }

  lemma WindowsChained(s: string, size: nat, overlap: nat, chunks: seq<Chunk>)
    requires 0 <= overlap < size && AreWindows(s, size, overlap, chunks)
    ensures Chained(s, overlap, chunks)
  {
    forall i | 0 <= i < |chunks| ensures IsSlice(s, chunks[i]) && (i == 0 ==> chunks[i].start == 0) {
      ChunkIsSlice(s, size, overlap, chunks, i);
    }
    forall i, k | 0 <= i < k < |chunks| && k == i + 1
      ensures chunks[i].end == chunks[k].start + overlap && |chunks[k].text| > overlap
    {
      NeighboursOverlap(s, size, overlap, chunks, i);
    }
  }

  lemma {:induction false} RebuildPrefix(s: string, overlap: nat, chunks: seq<Chunk>, n: nat)
    requires Chained(s, overlap, chunks) && 1 <= n <= |chunks|
    ensures Rebuild(chunks, overlap, n) == s[..chunks[n - 1].end]
  {
    if n > 1 {
      var a, b := chunks[n - 2], chunks[n - 1];
      RebuildPrefix(s, overlap, chunks, n - 1);
      assert IsSlice(s, b);
      assert b.text[overlap..] == s[a.end..b.end];
    }
  }

  /** Chunking loses nothing: the chunks rebuild the stripped text. */
  lemma ChunksRebuildText(s: string, size: nat, overlap: nat, chunks: seq<Chunk>)
    requires 0 <= overlap < size && AreWindows(s, size, overlap, chunks)
    ensures Rebuild(chunks, overlap, |chunks|) == s
  {
    if |s| > 0 {
      var last := |chunks| - 1;
      WindowsChained(s, size, overlap, chunks);
      RebuildPrefix(s, overlap, chunks, last + 1);
      ChunkIsSlice(s, size, overlap, chunks, last);
      assert s[..|s|] == s;
    }
  }
}
