/**
 * The text chunker `chunk_text(text, chunk_size, overlap)`: windows of
 * `chunkSize` characters whose starts advance by the stride
 * `chunkSize - overlap` while the start is still inside the text. Text no
 * longer than one window is returned whole; empty text gives no chunks.
 */
module Chunker {
  import opened Prelude
  import opened Text

  const DefaultChunkSize: int := 1000
  const DefaultOverlap: int := 100

  /** The parameters for which the window loop terminates. */
  predicate ValidParams(chunkSize: int, overlap: int) {
    0 < chunkSize && overlap < chunkSize
  }

  /** Python's `s[lo:hi]` for non-negative bounds: both ends clamp to the string. */
  function Slice(s: string, lo: nat, hi: nat): (r: string)
    ensures lo <= |s| ==> r == s[lo .. Min(|s|, if hi < lo then lo else hi)]
    ensures lo >= |s| ==> r == []
  {
    var a := Min(lo, |s|);
    var b := Min(hi, |s|);
    if a <= b then s[a..b] else []
  }

  /** Ceiling of `n / d`. */
  function Ceil(n: nat, d: nat): nat
    requires d > 0
  {
    (n + d - 1) / d
  }

  /** Where the `i`-th window starts: `i` strides in. */
  function Offset(stride: nat, i: nat): nat {
    if i == 0 then 0 else Offset(stride, i - 1) + stride
  }

  /** The start of the `i`-th window for the given parameters. */
  function WindowStart(chunkSize: int, overlap: int, i: nat): nat
    requires ValidParams(chunkSize, overlap)
  {
    Offset(chunkSize - overlap, i)
  }

  /** The window that starts at the `i`-th stride. */
  function Window(text: string, chunkSize: int, overlap: int, i: nat): string
    requires ValidParams(chunkSize, overlap)
  {
    var start := WindowStart(chunkSize, overlap, i);
    Slice(text, start, start + chunkSize)
  }

  /** The window loop, from offset `start` on. */
  function ChunksFrom(text: string, start: nat, chunkSize: int, overlap: int): seq<string>
    requires ValidParams(chunkSize, overlap)
    decreases |text| - start
  {
    if start >= |text| then []
    else [Slice(text, start, start + chunkSize)] + ChunksFrom(text, start + (chunkSize - overlap), chunkSize, overlap)
  }

  /**
   * Counting shape of the window loop: every start it takes lies inside the
   * text, and the first start it does not take lies at or past the end.
   */
  lemma {:induction false} ChunksFromCount(text: string, start: nat, chunkSize: int, overlap: int)
    requires ValidParams(chunkSize, overlap)
    ensures var r := ChunksFrom(text, start, chunkSize, overlap);
            var d := chunkSize - overlap;
            && (forall i :: 0 <= i < |r| ==> start + Offset(d, i) < |text|)
            && start + Offset(d, |r|) >= |text|
    decreases |text| - start
  {
    var r := ChunksFrom(text, start, chunkSize, overlap);
    var d := chunkSize - overlap;
    if start < |text| {
      var rest := ChunksFrom(text, start + d, chunkSize, overlap);
      ChunksFromCount(text, start + d, chunkSize, overlap);
      forall i | 1 <= i < |r|
        ensures start + Offset(d, i) < |text|
      {
        OffsetStep(d, i);
      }
      OffsetStep(d, |r|);
    }
  }

  /** The `i`-th result of the window loop is the window `i` strides in. */
  lemma {:induction false} ChunksFromAt(text: string, start: nat, chunkSize: int, overlap: int, i: nat)
    requires ValidParams(chunkSize, overlap)
    requires i < |ChunksFrom(text, start, chunkSize, overlap)|
    ensures var d := chunkSize - overlap;
            ChunksFrom(text, start, chunkSize, overlap)[i]
              == Slice(text, start + Offset(d, i), start + Offset(d, i) + chunkSize)
    decreases i
  {
    var d := chunkSize - overlap;
    if i > 0 {
      ChunksFromAt(text, start + d, chunkSize, overlap, i - 1);
      OffsetStep(d, i);
    }
  }

  lemma OffsetStep(stride: nat, i: nat)
    requires i >= 1
    ensures Offset(stride, i - 1) + stride == Offset(stride, i)
  {
  }

  /** `i` strides are `i * stride` characters. */
  lemma {:induction false} OffsetIsProduct(stride: nat, i: nat)
    ensures Offset(stride, i) == i * stride
  {
    if i > 0 {
      OffsetIsProduct(stride, i - 1);
    }
  }

  lemma MulLess(a: int, b: int, d: int)
    requires d > 0 && a * d < b * d
    ensures a < b
  {
  }

  /** The stride that a position falls into, among the first `count` strides. */
  lemma StrideIndex(k: nat, d: nat, count: nat) returns (i: nat)
    requires d > 0 && k < Offset(d, count)
    ensures i < count && Offset(d, i) <= k < Offset(d, i) + d
  {
    i := k / d;
    OffsetIsProduct(d, i);
    OffsetIsProduct(d, count);
    assert i * d <= k < i * d + d;
    if count <= i {
      MulLess(i, count, d);
    }
  }

  /** The quotient is pinned down by bounds on the dividend. */
  lemma DivFromBounds(x: nat, d: nat, c: nat)
    requires d > 0
    requires c * d <= x < (c + 1) * d
    ensures x / d == c
  {
    var q := x / d;
    assert q * d <= x < q * d + d;
    MulLess(c, q + 1, d);
    MulLess(q, c + 1, d);
  }

  /** `chunk_text`: overlapping fixed-size windows over `text`. */
  function ChunkText(text: string, chunkSize: int, overlap: int): (chunks: seq<string>)
    requires ValidParams(chunkSize, overlap)
    ensures |text| == 0 ==> chunks == []
    ensures 0 < |text| <= chunkSize ==> chunks == [text]
    ensures |text| > chunkSize ==> |chunks| == Ceil(|text|, chunkSize - overlap)
    ensures forall i :: 0 <= i < |chunks| ==> chunks[i] == Window(text, chunkSize, overlap, i)
    ensures forall i :: 0 <= i < |chunks| ==> WindowStart(chunkSize, overlap, i) < |text|
    ensures forall i :: 0 <= i < |chunks| ==>
              |chunks[i]| == Min(chunkSize, |text| - WindowStart(chunkSize, overlap, i)) > 0
  {
    if |text| == 0 then []
    else if |text| <= chunkSize then
      assert Window(text, chunkSize, overlap, 0) == text[0 .. |text|];
      [text]
    else
      LongTextChunks(text, chunkSize, overlap);
      ChunksFrom(text, 0, chunkSize, overlap)
  }

  /** A window that starts inside the text is non-empty and clamped at the end. */
  lemma WindowLength(text: string, chunkSize: int, overlap: int, i: nat)
    requires ValidParams(chunkSize, overlap) && WindowStart(chunkSize, overlap, i) < |text|
    ensures |Window(text, chunkSize, overlap, i)| == Min(chunkSize, |text| - WindowStart(chunkSize, overlap, i)) > 0
  {
  }

  /** The window loop on a text longer than one window: its count and its windows. */
  lemma LongTextChunks(text: string, chunkSize: int, overlap: int)
    requires ValidParams(chunkSize, overlap) && |text| > chunkSize
    ensures var r := ChunksFrom(text, 0, chunkSize, overlap);
            && |r| == Ceil(|text|, chunkSize - overlap)
            && (forall i :: 0 <= i < |r| ==> r[i] == Window(text, chunkSize, overlap, i))
            && (forall i :: 0 <= i < |r| ==> WindowStart(chunkSize, overlap, i) < |text|)
            && (forall i :: 0 <= i < |r| ==>
                  |r[i]| == Min(chunkSize, |text| - WindowStart(chunkSize, overlap, i)) > 0)
  {
    LongTextCount(text, chunkSize, overlap);
    ChunksFromCount(text, 0, chunkSize, overlap);
    var r := ChunksFrom(text, 0, chunkSize, overlap);
    forall i | 0 <= i < |r|
      ensures r[i] == Window(text, chunkSize, overlap, i)
      ensures |r[i]| == Min(chunkSize, |text| - WindowStart(chunkSize, overlap, i)) > 0
    {
      ChunksFromAt(text, 0, chunkSize, overlap, i);
      WindowLength(text, chunkSize, overlap, i);
    }
  }

  /** The window loop takes one window per started stride. */
  lemma LongTextCount(text: string, chunkSize: int, overlap: int)
    requires ValidParams(chunkSize, overlap) && |text| > chunkSize
    ensures |ChunksFrom(text, 0, chunkSize, overlap)| == Ceil(|text|, chunkSize - overlap)
  {
    var d := chunkSize - overlap;
    ChunksFromCount(text, 0, chunkSize, overlap);
    var c := |ChunksFrom(text, 0, chunkSize, overlap)|;
    assert c > 0;
    assert Offset(d, c - 1) < |text| <= Offset(d, c);
    OffsetIsProduct(d, c);
    OffsetIsProduct(d, c - 1);
    assert (c - 1) * d == c * d - d;
    assert (c + 1) * d == c * d + d;
    DivFromBounds(|text| + d - 1, d, c);
  }

  // ---------------------------------------------------------------------------
  // Properties
  // ---------------------------------------------------------------------------

  /**
   * When the overlap is non-negative the last chunk ends exactly at the end
   * of the text.
   */
  lemma LastChunkReachesEnd(text: string, chunkSize: int, overlap: int)
    requires ValidParams(chunkSize, overlap) && 0 <= overlap
    requires |text| > 0
    ensures var r := ChunkText(text, chunkSize, overlap);
            |r| > 0 && Offset(chunkSize - overlap, |r| - 1) + |r[|r| - 1]| == |text|
  {
    var r := ChunkText(text, chunkSize, overlap);
    var d := chunkSize - overlap;
    if |text| > chunkSize {
      ChunksFromCount(text, 0, chunkSize, overlap);
      OffsetStep(d, |r|);
    }
  }

  /**
   * With a non-negative overlap every character of the text lies in some
   * chunk, at the offset the window arithmetic predicts.
   */
  lemma CharCovered(text: string, chunkSize: int, overlap: int, k: nat) returns (i: nat)
    requires ValidParams(chunkSize, overlap) && 0 <= overlap
    requires k < |text|
    ensures var r := ChunkText(text, chunkSize, overlap);
            var start := WindowStart(chunkSize, overlap, i);
            && i < |r|
            && start <= k < start + |r[i]|
            && r[i][k - start] == text[k]
  {
    var r := ChunkText(text, chunkSize, overlap);
    var d := chunkSize - overlap;
    if |text| <= chunkSize {
      i := 0;
      assert r[0] == text;
    } else {
      ChunksFromCount(text, 0, chunkSize, overlap);
      assert Offset(d, |r|) >= |text|;
      i := StrideIndex(k, d, |r|);
      var start := WindowStart(chunkSize, overlap, i);
      assert start == Offset(d, i);
      assert |r[i]| == Min(chunkSize, |text| - start);
      assert r[i] == text[start .. start + |r[i]|];
    }
  }

  /**
   * With a non-negative overlap, the last `overlap` characters of a chunk are
   * a prefix of the next chunk (shorter when the next chunk is a short tail).
   */
  lemma ConsecutiveChunksOverlap(text: string, chunkSize: int, overlap: int, i: nat)
    requires ValidParams(chunkSize, overlap) && 0 <= overlap
    requires i + 1 < |ChunkText(text, chunkSize, overlap)|
    ensures var r := ChunkText(text, chunkSize, overlap);
            var d := chunkSize - overlap;
            d <= |r[i]| && IsPrefix(r[i][d..], r[i + 1])
  {
    var r := ChunkText(text, chunkSize, overlap);
    var d := chunkSize - overlap;
    var n := |text|;
    var s := WindowStart(chunkSize, overlap, i);
    OffsetStep(d, i + 1);
    assert WindowStart(chunkSize, overlap, i + 1) == s + d < n;
    var e := Min(s + chunkSize, n);
    var e2 := Min(s + d + chunkSize, n);
    assert r[i] == Window(text, chunkSize, overlap, i) == text[s..e];
    assert r[i + 1] == Window(text, chunkSize, overlap, i + 1) == text[s + d .. e2];
    assert r[i][d..] == text[s + d .. e];
    assert r[i + 1][..e - s - d] == text[s + d .. e];
  }

  /**
   * A chunk other than the last falls short of `chunkSize` exactly when
   * fewer than `overlap` characters remain from where the next chunk starts.
   */
  lemma ShortChunkIff(text: string, chunkSize: int, overlap: int, i: nat)
    requires ValidParams(chunkSize, overlap)
    requires i + 1 < |ChunkText(text, chunkSize, overlap)|
    ensures var r := ChunkText(text, chunkSize, overlap);
            |r[i]| < chunkSize <==> |text| - WindowStart(chunkSize, overlap, i + 1) < overlap
  {
    var r := ChunkText(text, chunkSize, overlap);
    var d := chunkSize - overlap;
    OffsetStep(d, i + 1);
    var s := WindowStart(chunkSize, overlap, i);
    assert WindowStart(chunkSize, overlap, i + 1) == s + d;
    assert |r[i]| == Min(chunkSize, |text| - s);
  }

  /**
   * With an overlap of at most one character, every chunk but the last is a
   * full window: the next chunk starts inside the text, so at least one
   * character remains from its start.
   */
  lemma FullChunksSmallOverlap(text: string, chunkSize: int, overlap: int)
    requires ValidParams(chunkSize, overlap) && overlap <= 1
    ensures var r := ChunkText(text, chunkSize, overlap);
            forall i :: 0 <= i < |r| - 1 ==> |r[i]| == chunkSize
  {
    var r := ChunkText(text, chunkSize, overlap);
    forall i | 0 <= i < |r| - 1 ensures |r[i]| == chunkSize {
      ShortChunkIff(text, chunkSize, overlap, i);
    }
  }

  /**
   * A positive overlap breaks "every chunk but the last is full": 1850
   * characters with the default 1000/100 give three chunks, the middle one
   * 950 characters long, and the last one lies wholly inside the middle one.
   */
  lemma ShortChunkBeforeLast(text: string)
    requires |text| == 1850
    ensures var r := ChunkText(text, DefaultChunkSize, DefaultOverlap);
            && |r| == 3
            && |r[0]| == 1000 && |r[1]| == 950 && |r[2]| == 50
            && r[2] == r[1][900..]
  {
    var r := ChunkText(text, DefaultChunkSize, DefaultOverlap);
    assert |r| == 3;
    assert r[1] == text[900..1850];
    assert r[2] == text[1800..1850];
  }

  /** The default parameters on 1500 characters: two chunks, the first full. */
  lemma DefaultOn1500(text: string)
    requires |text| == 1500
    ensures var r := ChunkText(text, DefaultChunkSize, DefaultOverlap);
            |r| == 2 && |r[0]| == 1000 && r[0] == text[..1000] && r[1] == text[900..]
  {
    var r := ChunkText(text, DefaultChunkSize, DefaultOverlap);
    assert |r| == 2;
  }
}
