/** Splitting a document into overlapping chunks. */
module Chunking {
  import opened Wrappers

  datatype TextChunk = TextChunk(index: nat, content: string, contentHash: string)

  datatype ChunkingError = EmptyContent | SizeOutOfRange | OverlapOutOfRange

  const MAX_CHUNK_SIZE := 2000

  predicate Splittable(content: string, size: int, overlap: int) {
    content != "" && 1 <= size <= MAX_CHUNK_SIZE && 0 <= overlap < size
  }

  // ---------------------------------------------------------------- closed form

  /** One chunk if the content fits, otherwise one more for every started step past the first chunk. */
  function ChunkCount(length: nat, size: int, overlap: int): nat
    requires 0 <= overlap < size
  {
    if length <= size then 1 else 1 + CeilingDivide(length - size, size - overlap)
  }

  function CeilingDivide(a: nat, b: nat): nat
    requires b > 0
  {
    (a + b - 1) / b
  }

  function Min(a: int, b: int): int {
    if a < b then a else b
  }

  function Start(i: nat, size: int, overlap: int): nat
    requires 0 <= overlap < size
  {
    i * (size - overlap)
  }

  function End(i: nat, length: nat, size: int, overlap: int): nat
    requires 0 <= overlap < size
  {
    Min(Start(i, size, overlap) + size, length)
  }

  /** Another chunk follows exactly when the content goes on past this one. */
  lemma CountMeaning(length: nat, size: int, overlap: int, i: nat)
    requires 0 <= overlap < size
    ensures i + 1 < ChunkCount(length, size, overlap) <==> Start(i, size, overlap) + size < length
  {
    var step := size - overlap;
    if length > size {
      var a := length - size;
      DivideBounds(a + step - 1, step);
      var q := CeilingDivide(a, step);
      if i < q {
        MultiplyLess(i, q - 1, step);
        assert (q - 1) * step == q * step - step;
      } else {
        MultiplyLess(q, i, step);
      }
    }
  }

  lemma DivideBounds(a: nat, b: nat)
    requires b > 0
    ensures (a / b) * b <= a < (a / b) * b + b
  {
  }

  lemma MultiplyLess(a: int, b: int, c: nat)
    requires a <= b
    ensures a * c <= b * c
  {
  }

  lemma StartNext(i: nat, size: int, overlap: int)
    requires 0 <= overlap < size
    ensures Start(i + 1, size, overlap) == Start(i, size, overlap) + size - overlap
  {
  }

  /** Every chunk starts inside the content. */
  lemma StartInside(length: nat, size: int, overlap: int, i: nat)
    requires 0 <= overlap < size && length > 0 && i < ChunkCount(length, size, overlap)
    ensures Start(i, size, overlap) < length
    ensures i > 0 ==> Start(i, size, overlap) + overlap < length
  {
    if i > 0 {
      CountMeaning(length, size, overlap, i - 1);
      StartNext(i - 1, size, overlap);
    }
  }

  function Chunk(digest: string -> string, content: string, size: int, overlap: int, i: nat): TextChunk
    requires 0 <= overlap < size && Start(i, size, overlap) <= |content|
  {
    var text := content[Start(i, size, overlap)..End(i, |content|, size, overlap)];
    TextChunk(i, text, digest(text))
  }

  predicate IsSplit(digest: string -> string, content: string, size: int, overlap: int, chunks: seq<TextChunk>)
    requires 0 <= overlap < size
  {
    |chunks| == ChunkCount(|content|, size, overlap)
    && forall i: nat | i < |chunks| :: Start(i, size, overlap) < |content|
          && chunks[i] == Chunk(digest, content, size, overlap, i)
  }

  function AllChunks(digest: string -> string, content: string, size: int, overlap: int): (chunks: seq<TextChunk>)
    requires Splittable(content, size, overlap)
    ensures IsSplit(digest, content, size, overlap, chunks)
  {
    assert forall i: nat | i < ChunkCount(|content|, size, overlap) :: Start(i, size, overlap) < |content| by {
      forall i: nat | i < ChunkCount(|content|, size, overlap) ensures Start(i, size, overlap) < |content| {
        StartInside(|content|, size, overlap, i);
      }
    }
    seq(ChunkCount(|content|, size, overlap),
        i requires 0 <= i < ChunkCount(|content|, size, overlap) => Chunk(digest, content, size, overlap, i))
  }

  lemma SplitIsUnique(digest: string -> string, content: string, size: int, overlap: int, chunks: seq<TextChunk>)
    requires Splittable(content, size, overlap) && IsSplit(digest, content, size, overlap, chunks)
    ensures chunks == AllChunks(digest, content, size, overlap)
  {
  }

  /** split_into_chunks: rejected arguments, or exactly the chunks of the closed form. */
  method SplitIntoChunks(digest: string -> string, content: string, size: int, overlap: int)
    returns (r: Result<seq<TextChunk>, ChunkingError>)
    ensures content == "" ==> r == Err(EmptyContent)
    ensures content != "" && !(1 <= size <= MAX_CHUNK_SIZE) ==> r == Err(SizeOutOfRange)
    ensures content != "" && 1 <= size <= MAX_CHUNK_SIZE && !(0 <= overlap < size) ==> r == Err(OverlapOutOfRange)
    ensures r.Ok? <==> Splittable(content, size, overlap)
    ensures r.Ok? <==> content != "" && 1 <= size <= 2000 && 0 <= overlap < size
    ensures r.Ok? ==> IsSplit(digest, content, size, overlap, r.value)
  {
    if content == "" {
      return Err(EmptyContent);
    }
    if !(1 <= size <= MAX_CHUNK_SIZE) {
      return Err(SizeOutOfRange);
    }
    if overlap < 0 || overlap >= size {
      return Err(OverlapOutOfRange);
    }
    var chunks: seq<TextChunk> := [];
    var step := size - overlap;
    var start, index := 0, 0;
    while start < |content|
      invariant start == Start(index, size, overlap) < |content|
      invariant |chunks| == index < ChunkCount(|content|, size, overlap)
      invariant forall i: nat | i < index ::
                  Start(i, size, overlap) < |content| && chunks[i] == Chunk(digest, content, size, overlap, i)
      decreases |content| - start
    {
      var text := content[start..Min(start + size, |content|)];
      chunks := chunks + [TextChunk(index, text, digest(text))];
      CountMeaning(|content|, size, overlap, index);
      if start + size >= |content| {
        break;
      }
      StartNext(index, size, overlap);
      StartInside(|content|, size, overlap, index + 1);
      start, index := start + step, index + 1;
    }
    r := Ok(chunks);
  }

  // ---------------------------------------------------------------- shape

  /** Every chunk but the last is full, the last one ends the content, and each one adds something new. */
  lemma SplitShape(digest: string -> string, content: string, size: int, overlap: int, chunks: seq<TextChunk>, i: nat)
    requires Splittable(content, size, overlap) && IsSplit(digest, content, size, overlap, chunks) && i < |chunks|
    ensures 0 < |chunks[i].content| <= size
    ensures i + 1 < |chunks| <==> Start(i, size, overlap) + size < |content|
    ensures i + 1 < |chunks| ==> |chunks[i].content| == size
    ensures i + 1 == |chunks| ==> Start(i, size, overlap) + |chunks[i].content| == |content|
    ensures i > 0 ==> |chunks[i].content| > overlap
  {
    CountMeaning(|content|, size, overlap, i);
    StartInside(|content|, size, overlap, i);
  }

  // ---------------------------------------------------------------- round trip

  /** The first chunk followed by every later chunk without its first `overlap` characters. */
  function Reassemble(chunks: seq<TextChunk>, overlap: nat): string {
    if chunks == [] then ""
    else if |chunks| == 1 then chunks[0].content
    else
      var last := chunks[|chunks| - 1].content;
      Reassemble(chunks[..|chunks| - 1], overlap) + if overlap <= |last| then last[overlap..] else ""
  }

  lemma SliceOfSlice(s: string, start: nat, end: nat, a: nat, b: nat)
    requires start <= a <= b <= end <= |s|
    ensures s[start..end][a - start..b - start] == s[a..b]
  {
    var outer := s[start..end];
    forall k | 0 <= k < b - a ensures outer[a - start..b - start][k] == s[a..b][k] {
      assert outer[a - start + k] == s[a + k];
    }
  }

  /** A later chunk, without its overlap, is exactly what the content has past the chunk before it. */
  lemma NewPart(digest: string -> string, content: string, size: int, overlap: int, chunks: seq<TextChunk>, k: nat)
    requires Splittable(content, size, overlap) && IsSplit(digest, content, size, overlap, chunks) && 0 < k < |chunks|
    ensures overlap < |chunks[k].content|
    ensures End(k - 1, |content|, size, overlap) <= End(k, |content|, size, overlap) <= |content|
    ensures chunks[k].content[overlap..]
            == content[End(k - 1, |content|, size, overlap)..End(k, |content|, size, overlap)]
  {
    SplitShape(digest, content, size, overlap, chunks, k);
    SplitShape(digest, content, size, overlap, chunks, k - 1);
    StartNext(k - 1, size, overlap);
    var start, end := Start(k, size, overlap), End(k, |content|, size, overlap);
    var before := End(k - 1, |content|, size, overlap);
    assert before == start + overlap;
    SliceOfSlice(content, start, end, before, end);
  }

  lemma {:induction false} ReassemblePrefix(digest: string -> string, content: string, size: int, overlap: int,
                                            chunks: seq<TextChunk>, k: nat)
    requires Splittable(content, size, overlap) && IsSplit(digest, content, size, overlap, chunks) && k < |chunks|
    ensures Reassemble(chunks[..k + 1], overlap) == content[..End(k, |content|, size, overlap)]
  {
    if k > 0 {
      ReassemblePrefix(digest, content, size, overlap, chunks, k - 1);
      NewPart(digest, content, size, overlap, chunks, k);
      assert chunks[..k + 1][..k] == chunks[..k];
      assert chunks[..k + 1][k] == chunks[k];
    }
  }

  /** Splitting loses nothing. */
  lemma SplitRoundTrip(digest: string -> string, content: string, size: int, overlap: int, chunks: seq<TextChunk>)
    requires Splittable(content, size, overlap) && IsSplit(digest, content, size, overlap, chunks)
    ensures Reassemble(chunks, overlap) == content
  {
    var last := |chunks| - 1;
    SplitShape(digest, content, size, overlap, chunks, last);
    ReassemblePrefix(digest, content, size, overlap, chunks, last);
    assert chunks[..last + 1] == chunks;
  }

  // ---------------------------------------------------------------- coverage

  /** The passage content[a..b] lies inside chunk i. */
  predicate Inside(length: nat, size: int, overlap: int, i: nat, a: nat, b: nat)
    requires 0 <= overlap < size
  {
    Start(i, size, overlap) <= a <= b <= End(i, length, size, overlap)
  }

  lemma InsideMeaning(digest: string -> string, content: string, size: int, overlap: int, chunks: seq<TextChunk>,
                      i: nat, a: nat, b: nat)
    requires Splittable(content, size, overlap) && IsSplit(digest, content, size, overlap, chunks)
    requires i < |chunks| && Inside(|content|, size, overlap, i, a, b)
    ensures var start := Start(i, size, overlap);
            b - start <= |chunks[i].content| && chunks[i].content[a - start..b - start] == content[a..b]
  {
    assert chunks[i] == Chunk(digest, content, size, overlap, i);
    SliceOfSlice(content, Start(i, size, overlap), End(i, |content|, size, overlap), a, b);
  }

  lemma ShortPassageInside(length: nat, size: int, overlap: int, a: nat, b: nat) returns (i: nat)
    requires 0 <= overlap < size && a <= b <= length && length > 0
    requires b - a <= overlap + 1 || length <= size
    ensures i < ChunkCount(length, size, overlap) && Inside(length, size, overlap, i, a, b)
  {
    var step := size - overlap;
    var last := ChunkCount(length, size, overlap) - 1;
    CountMeaning(length, size, overlap, last);
    if length <= size {
      i := 0;
    } else if a / step >= last {
      i := last;
      MultiplyLess(last, a / step, step);
      DivideBounds(a, step);
    } else {
      i := a / step;
      DivideBounds(a, step);
    }
  }

  ghost predicate Covered(length: nat, size: int, overlap: int, a: nat, b: nat)
    requires 0 <= overlap < size
  {
    exists i: nat | i < ChunkCount(length, size, overlap) :: Inside(length, size, overlap, i, a, b)
  }

  /**
   * Every passage of a given length lies whole inside some chunk if and only if it is at most one character
   * longer than the overlap, or the content is a single chunk.
   */
  lemma CoverageIsExact(length: nat, size: int, overlap: int, passage: nat)
    requires 0 <= overlap < size && 0 < length && passage <= length
    ensures (forall a: nat, b: nat | a <= b <= length && b - a == passage :: Covered(length, size, overlap, a, b))
            <==> passage <= overlap + 1 || length <= size
  {
    if passage <= overlap + 1 || length <= size {
      forall a: nat, b: nat | a <= b <= length && b - a == passage ensures Covered(length, size, overlap, a, b) {
        var i := ShortPassageInside(length, size, overlap, a, b);
      }
    } else {
      var a := Min(size - overlap - 1, length - passage);
      var b := a + passage;
      forall i: nat | i < ChunkCount(length, size, overlap) ensures !Inside(length, size, overlap, i, a, b) {
        if i > 0 {
          MultiplyLess(1, i, size - overlap);
        }
      }
      assert !Covered(length, size, overlap, a, b);
    }
  }
}
