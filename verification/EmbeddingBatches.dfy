/** Calling an embedding provider in batches and putting its answers back in order. */
module EmbeddingBatches {
  import opened Wrappers
  import opened Chunking
  import opened Sorting

  /** A component of a vector as the provider sent it. */
  datatype Component = Number(value: real) | NotFinite | NotANumber

  type Vector = seq<real>

  /** One entry of a response, in the order it arrived. */
  datatype Item = Item(index: int, embedding: seq<Component>)

  /** `tokens` is None when the usage is not an integer. */
  datatype Response = Response(data: seq<Item>, tokens: Option<int>)

  datatype Batch = Batch(vectors: seq<Vector>, tokens: nat)

  datatype EmbeddingError = EmptyBatch | ProviderUnavailable | InvalidResponse

  predicate GoodVector(raw: seq<Component>, dimensions: int) {
    |raw| == dimensions && forall i | 0 <= i < |raw| :: raw[i].Number?
  }

  function Values(raw: seq<Component>): Vector
    requires forall i | 0 <= i < |raw| :: raw[i].Number?
  {
    seq(|raw|, i requires 0 <= i < |raw| => raw[i].value)
  }

  function Position(item: Item): int {
    item.index
  }

  /** A response that answers every text exactly once, with vectors of the right kind. */
  predicate Acceptable(response: Response, texts: nat, dimensions: int) {
    && |response.data| == texts
    && KeysArePermutation(Position, response.data)
    && GoodVectors(response.data, dimensions)
    && response.tokens.Some? && response.tokens.value >= 0
  }

  /** Component by component, the vector is what was sent. */
  predicate Carries(vector: Vector, raw: seq<Component>, dimensions: int) {
    |vector| == |raw| == dimensions && forall c | 0 <= c < |raw| :: raw[c] == Number(vector[c])
  }

  /** Each position is named once. */
  predicate EachOnce(data: seq<Item>) {
    && (forall i, j | 0 <= i < j < |data| :: data[i].index != data[j].index)
    && (forall j | 0 <= j < |data| :: 0 <= data[j].index < |data|)
  }

  lemma PermutationMeans(data: seq<Item>)
    ensures KeysArePermutation(Position, data) <==> EachOnce(data)
  {
    if EachOnce(data) {
      forall i, j | 0 <= i < j < |data| ensures Position(data[i]) != Position(data[j]) {
        assert data[i].index != data[j].index;
      }
      assert DistinctKeys(Position, data);
      forall j | 0 <= j < |data| ensures 0 <= Position(data[j]) < |data| {
        assert 0 <= data[j].index < |data|;
      }
    }
    if KeysArePermutation(Position, data) {
      forall i, j | 0 <= i < j < |data| ensures data[i].index != data[j].index {
        assert Position(data[i]) != Position(data[j]);
      }
      forall j | 0 <= j < |data| ensures 0 <= data[j].index < |data| {
        assert 0 <= Position(data[j]) < |data|;
      }
    }
  }

  /** What was sent is a vector of this length. */
  ghost predicate SendsVector(raw: seq<Component>, dimensions: int) {
    exists vector :: Carries(vector, raw, dimensions)
  }

  lemma GoodVectorMeans(raw: seq<Component>, dimensions: int)
    ensures GoodVector(raw, dimensions) <==> SendsVector(raw, dimensions)
  {
    if GoodVector(raw, dimensions) {
      assert Carries(Values(raw), raw, dimensions);
    }
  }

  /** What a response must be: one finite vector of the right length for each position, and a number of tokens. */
  lemma AcceptableMeans(response: Response, texts: nat, dimensions: int)
    ensures Acceptable(response, texts, dimensions)
            <==> |response.data| == texts && EachOnce(response.data)
                 && (forall j | 0 <= j < texts :: SendsVector(response.data[j].embedding, dimensions))
                 && response.tokens.Some? && response.tokens.value >= 0
  {
    PermutationMeans(response.data);
    forall j | 0 <= j < |response.data|
      ensures GoodVector(response.data[j].embedding, dimensions) <==> SendsVector(response.data[j].embedding, dimensions)
    {
      GoodVectorMeans(response.data[j].embedding, dimensions);
    }
  }

  predicate GoodVectors(items: seq<Item>, dimensions: int) {
    forall i | 0 <= i < |items| :: GoodVector(items[i].embedding, dimensions)
  }

  lemma GoodVectorsPermute(a: seq<Item>, b: seq<Item>, dimensions: int)
    requires multiset(a) == multiset(b) && GoodVectors(a, dimensions)
    ensures GoodVectors(b, dimensions)
  {
    forall i | 0 <= i < |b| ensures GoodVector(b[i].embedding, dimensions) {
      assert b[i] in multiset(a);
    }
  }

  /** The loop over the ordered items. */
  method ReadVectors(ordered: seq<Item>, dimensions: int) returns (r: Result<seq<Vector>, EmbeddingError>)
    ensures r.Ok? <==> GoodVectors(ordered, dimensions)
    ensures r.Err? ==> r.error == InvalidResponse
    ensures r.Ok? ==>
              |r.value| == |ordered| && forall k | 0 <= k < |ordered| :: r.value[k] == Values(ordered[k].embedding)
  {
    var vectors: seq<Vector> := [];
    for i := 0 to |ordered|
      invariant |vectors| == i
      invariant forall k | 0 <= k < i ::
                  GoodVector(ordered[k].embedding, dimensions) && vectors[k] == Values(ordered[k].embedding)
    {
      var raw := ordered[i].embedding;
      if !GoodVector(raw, dimensions) {
        return Err(InvalidResponse);
      }
      vectors := vectors + [Values(raw)];
    }
    r := Ok(vectors);
  }

  /**
   * OpenAIEmbeddingProvider.embed: a response is taken exactly when its indexes are a permutation of the
   * positions of the texts, in whatever order it arrived, and then each text gets the vector sent under its index.
   */
  method Embed(texts: seq<string>, dimensions: int, reply: Option<Response>) returns (r: Result<Batch, EmbeddingError>)
    ensures texts == [] ==> r == Err(EmptyBatch)
    ensures texts != [] && reply == None ==> r == Err(ProviderUnavailable)
    ensures texts != [] && reply.Some? ==> (r.Ok? <==> Acceptable(reply.value, |texts|, dimensions))
    ensures texts != [] && reply.Some? && r.Err? ==> r.error == InvalidResponse
    ensures r.Ok? ==> |r.value.vectors| == |texts| && r.value.tokens == reply.value.tokens.value
    ensures r.Ok? ==> forall j | 0 <= j < |texts| ::
                        r.value.vectors[reply.value.data[j].index] == Values(reply.value.data[j].embedding)
    ensures r.Ok? ==> forall j | 0 <= j < |texts| ::
                        Carries(r.value.vectors[reply.value.data[j].index], reply.value.data[j].embedding, dimensions)
  {
    if texts == [] {
      return Err(EmptyBatch);
    }
    if reply == None {
      return Err(ProviderUnavailable);
    }
    var data := reply.value.data;
    if |data| != |texts| {
      return Err(InvalidResponse);
    }
    var ordered := SortBy(Position, data);
    SortSorts(Position, data);
    SortedToPositions(Position, data);
    if exists i | 0 <= i < |ordered| :: Position(ordered[i]) != i {
      return Err(InvalidResponse);
    }
    forall j | 0 <= j < |data| ensures ordered[data[j].index] == data[j] {
      FoundAtKey(Position, data, j);
    }
    var vectors := ReadVectors(ordered, dimensions);
    if vectors.Ok? {
      GoodVectorsPermute(ordered, data, dimensions);
    }
    if vectors.Err? {
      if GoodVectors(data, dimensions) {
        GoodVectorsPermute(data, ordered, dimensions);
      }
      return Err(InvalidResponse);
    }
    if reply.value.tokens == None || reply.value.tokens.value < 0 {
      return Err(InvalidResponse);
    }
    r := Ok(Batch(vectors.value, reply.value.tokens.value));
  }

  // ---------------------------------------------------------------- batches

  function BatchCount(n: nat, size: nat): nat
    requires size > 0
  {
    CeilingDivide(n, size)
  }

  /** Where the k-th call's chunks start. */
  function Offset(k: nat, size: nat): nat {
    k * size
  }

  lemma OffsetNext(k: nat, size: nat)
    ensures Offset(k + 1, size) == Offset(k, size) + size
  {
  }

  /** The k-th call's chunks. */
  function BatchAt(chunks: seq<TextChunk>, size: nat, k: nat): seq<TextChunk> {
    chunks[Min(Offset(k, size), |chunks|)..Min(Offset(k, size) + size, |chunks|)]
  }

  predicate AreBatches(chunks: seq<TextChunk>, size: nat, calls: seq<seq<TextChunk>>) {
    forall k: nat | k < |calls| :: calls[k] == BatchAt(chunks, size, k)
  }

  function Texts(chunks: seq<TextChunk>): seq<string> {
    seq(|chunks|, i requires 0 <= i < |chunks| => chunks[i].content)
  }

  /** The service's own check of what a provider returned. */
  predicate ValidBatch(b: Batch, expected: nat, dimensions: int) {
    |b.vectors| == expected && forall i | 0 <= i < |b.vectors| :: |b.vectors[i]| == dimensions
  }

  /** A provider may answer every call as it likes: its k-th answer to these texts. */
  type Provider = (nat, seq<string>) -> Result<Batch, EmbeddingError>

  function Answer(provider: Provider, chunks: seq<TextChunk>, size: nat, k: nat): Result<Batch, EmbeddingError> {
    provider(k, Texts(BatchAt(chunks, size, k)))
  }

  predicate Answered(provider: Provider, chunks: seq<TextChunk>, size: nat, dimensions: int, k: nat) {
    var answer := Answer(provider, chunks, size, k);
    answer.Ok? && ValidBatch(answer.value, |BatchAt(chunks, size, k)|, dimensions)
  }

  predicate AllAnswered(provider: Provider, chunks: seq<TextChunk>, size: nat, dimensions: int, n: nat) {
    forall k: nat | k < n :: Answered(provider, chunks, size, dimensions, k)
  }

  /** The texts of the k-th call are those of its chunks. */
  predicate SentTexts(chunks: seq<TextChunk>, size: nat, k: nat, texts: seq<string>) {
    && k * size <= |chunks| && |texts| == Min(size, |chunks| - k * size)
    && forall m | 0 <= m < |texts| :: texts[m] == chunks[k * size + m].content
  }

  /** The provider answers the k-th call with one vector of the right length for each of its texts. */
  ghost predicate AnswersWell(provider: Provider, chunks: seq<TextChunk>, size: nat, dimensions: int, k: nat) {
    exists texts ::
      && SentTexts(chunks, size, k, texts) && provider(k, texts).Ok?
      && |provider(k, texts).value.vectors| == |texts|
      && forall v | v in provider(k, texts).value.vectors :: |v| == dimensions
  }

  lemma TextsAreSent(chunks: seq<TextChunk>, size: nat, k: nat, texts: seq<string>)
    requires k * size <= |chunks|
    ensures SentTexts(chunks, size, k, texts) <==> texts == Texts(BatchAt(chunks, size, k))
  {
    assert Offset(k, size) == k * size;
  }

  /** The service takes an answer exactly when it has one vector of the right length for each text. */
  lemma AnsweredMeans(provider: Provider, chunks: seq<TextChunk>, size: nat, dimensions: int, k: nat)
    requires size > 0 && k < BatchCount(|chunks|, size)
    ensures Answered(provider, chunks, size, dimensions, k) <==> AnswersWell(provider, chunks, size, dimensions, k)
  {
    OffsetInside(|chunks|, size, k);
    var sent := Texts(BatchAt(chunks, size, k));
    TextsAreSent(chunks, size, k, sent);
    forall texts | SentTexts(chunks, size, k, texts) ensures texts == sent {
      TextsAreSent(chunks, size, k, texts);
    }
    if provider(k, sent).Ok? {
      var vectors := provider(k, sent).value.vectors;
      assert (forall v | v in vectors :: |v| == dimensions) <==> forall i | 0 <= i < |vectors| :: |vectors[i]| == dimensions;
    }
  }

  /** The first n calls' vectors one after the other, and the sum of what the calls used. */
  function Gathered(provider: Provider, chunks: seq<TextChunk>, size: nat, dimensions: int, n: nat): Batch
    requires AllAnswered(provider, chunks, size, dimensions, n)
  {
    if n == 0 then Batch([], 0)
    else
      assert Answered(provider, chunks, size, dimensions, n - 1);
      var before := Gathered(provider, chunks, size, dimensions, n - 1);
      var answer := Answer(provider, chunks, size, n - 1).value;
      Batch(before.vectors + answer.vectors, before.tokens + answer.tokens)
  }

  lemma GatheredNext(provider: Provider, chunks: seq<TextChunk>, size: nat, dimensions: int, k: nat)
    requires AllAnswered(provider, chunks, size, dimensions, k) && Answered(provider, chunks, size, dimensions, k)
    ensures AllAnswered(provider, chunks, size, dimensions, k + 1)
    ensures var before := Gathered(provider, chunks, size, dimensions, k);
            var answer := Answer(provider, chunks, size, k).value;
            Gathered(provider, chunks, size, dimensions, k + 1)
            == Batch(before.vectors + answer.vectors, before.tokens + answer.tokens)
  {
  }

  lemma OffsetInside(n: nat, size: nat, k: nat)
    requires size > 0
    ensures k < BatchCount(n, size) <==> Offset(k, size) < n
  {
    DivideBounds(n + size - 1, size);
    var q := BatchCount(n, size);
    if k < q {
      MultiplyLess(k, q - 1, size);
      OffsetNext(q - 1, size);
    } else {
      MultiplyLess(q, k, size);
    }
  }

  /** One provider call, with the service's check of its answer. */
  method CallOnce(provider: Provider, k: nat, batch: seq<TextChunk>, dimensions: int)
    returns (r: Result<Batch, EmbeddingError>)
    ensures r.Ok? <==> provider(k, Texts(batch)).Ok? && ValidBatch(provider(k, Texts(batch)).value, |batch|, dimensions)
    ensures r.Ok? ==> r == provider(k, Texts(batch))
  {
    var result := provider(k, Texts(batch));
    if result.Err? {
      return Err(result.error);
    }
    if !ValidBatch(result.value, |batch|, dimensions) {
      return Err(InvalidResponse);
    }
    r := result;
  }

  /**
   * _embed_chunks: the calls made are the consecutive batches of the chunks, up to the first one that is not
   * answered properly; it succeeds when there is none, with all vectors in order and the sum of the tokens.
   */
  method EmbedChunks(provider: Provider, chunks: seq<TextChunk>, size: nat, dimensions: int)
    returns (r: Result<Batch, EmbeddingError>, calls: seq<seq<TextChunk>>)
    requires size > 0
    ensures AreBatches(chunks, size, calls)
    ensures if r.Ok? then |calls| == BatchCount(|chunks|, size) else 0 < |calls| <= BatchCount(|chunks|, size)
    ensures r.Err? ==>
              && AllAnswered(provider, chunks, size, dimensions, |calls| - 1)
              && !Answered(provider, chunks, size, dimensions, |calls| - 1)
    ensures r.Ok? ==>
              && AllAnswered(provider, chunks, size, dimensions, |calls|)
              && r.value == Gathered(provider, chunks, size, dimensions, |calls|)
  {
    var vectors: seq<Vector> := [];
    var tokens: nat := 0;
    calls := [];
    var start := 0;
    while start < |chunks|
      invariant start == Offset(|calls|, size)
      invariant |calls| <= BatchCount(|chunks|, size)
      invariant AreBatches(chunks, size, calls)
      invariant AllAnswered(provider, chunks, size, dimensions, |calls|)
      invariant Batch(vectors, tokens) == Gathered(provider, chunks, size, dimensions, |calls|)
      decreases |chunks| - start
    {
      OffsetInside(|chunks|, size, |calls|);
      OffsetNext(|calls|, size);
      var batch := chunks[start..Min(start + size, |chunks|)];
      assert batch == BatchAt(chunks, size, |calls|);
      var result := CallOnce(provider, |calls|, batch, dimensions);
      calls := calls + [batch];
      if result.Err? {
        return Err(result.error), calls;
      }
      GatheredNext(provider, chunks, size, dimensions, |calls| - 1);
      vectors := vectors + result.value.vectors;
      tokens := tokens + result.value.tokens;
      start := start + size;
    }
    OffsetInside(|chunks|, size, |calls|);
    r := Ok(Batch(vectors, tokens));
  }

  lemma {:induction false} GatheredShape(provider: Provider, chunks: seq<TextChunk>, size: nat, dimensions: int, n: nat)
    requires size > 0 && n <= BatchCount(|chunks|, size) && AllAnswered(provider, chunks, size, dimensions, n)
    ensures ValidBatch(Gathered(provider, chunks, size, dimensions, n), Min(Offset(n, size), |chunks|), dimensions)
  {
    if n > 0 {
      GatheredShape(provider, chunks, size, dimensions, n - 1);
      OffsetInside(|chunks|, size, n - 1);
      OffsetNext(n - 1, size);
      assert Answered(provider, chunks, size, dimensions, n - 1);
    }
  }

  lemma {:induction false} GatheredAt(provider: Provider, chunks: seq<TextChunk>, size: nat, dimensions: int, n: nat,
                                      k: nat, j: nat)
    requires size > 0 && n <= BatchCount(|chunks|, size) && AllAnswered(provider, chunks, size, dimensions, n)
    requires k < n && j < |BatchAt(chunks, size, k)|
    ensures Answered(provider, chunks, size, dimensions, k)
    ensures Offset(k, size) + j < |Gathered(provider, chunks, size, dimensions, n).vectors|
    ensures Gathered(provider, chunks, size, dimensions, n).vectors[Offset(k, size) + j]
            == Answer(provider, chunks, size, k).value.vectors[j]
  {
    assert Answered(provider, chunks, size, dimensions, k);
    GatheredShape(provider, chunks, size, dimensions, n - 1);
    OffsetInside(|chunks|, size, n - 1);
    if k < n - 1 {
      GatheredAt(provider, chunks, size, dimensions, n - 1, k, j);
    }
  }

  /**
   * Batching keeps identities: every chunk travels in exactly one call, and what the record of chunk i gets is the
   * vector that call returned for it.
   */
  lemma EveryChunkGetsItsVector(provider: Provider, chunks: seq<TextChunk>, size: nat, dimensions: int, i: nat)
    requires size > 0 && i < |chunks|
    requires AllAnswered(provider, chunks, size, dimensions, BatchCount(|chunks|, size))
    ensures var all := Gathered(provider, chunks, size, dimensions, BatchCount(|chunks|, size));
            var k, j := i / size, i % size;
            && ValidBatch(all, |chunks|, dimensions)
            && k < BatchCount(|chunks|, size) && Answered(provider, chunks, size, dimensions, k)
            && j < |BatchAt(chunks, size, k)| && BatchAt(chunks, size, k)[j] == chunks[i]
            && all.vectors[i] == Answer(provider, chunks, size, k).value.vectors[j]
            && SentFor(provider, chunks, size, k, j, all.vectors[i])
  {
    var n, k, j := BatchCount(|chunks|, size), i / size, i % size;
    DivideBounds(i, size);
    assert i == Offset(k, size) + j;
    OffsetInside(|chunks|, size, k);
    OffsetInside(|chunks|, size, n);
    GatheredShape(provider, chunks, size, dimensions, n);
    GatheredAt(provider, chunks, size, dimensions, n, k, j);
    TextsAreSent(chunks, size, k, Texts(BatchAt(chunks, size, k)));
  }

  /** The vector is the j-th of the provider's answer to the k-th call. */
  ghost predicate SentFor(provider: Provider, chunks: seq<TextChunk>, size: nat, k: nat, j: nat, vector: Vector) {
    exists texts ::
      && SentTexts(chunks, size, k, texts) && provider(k, texts).Ok?
      && j < |provider(k, texts).value.vectors| && provider(k, texts).value.vectors[j] == vector
  }

  function Concat(calls: seq<seq<TextChunk>>): seq<TextChunk> {
    if calls == [] then [] else Concat(calls[..|calls| - 1]) + calls[|calls| - 1]
  }

  lemma BatchExtends(chunks: seq<TextChunk>, size: nat, k: nat)
    ensures chunks[..Min(Offset(k, size), |chunks|)] + BatchAt(chunks, size, k)
            == chunks[..Min(Offset(k + 1, size), |chunks|)]
  {
    OffsetNext(k, size);
  }

  lemma {:induction false} ConcatPrefix(chunks: seq<TextChunk>, size: nat, calls: seq<seq<TextChunk>>)
    requires AreBatches(chunks, size, calls)
    ensures Concat(calls) == chunks[..Min(Offset(|calls|, size), |chunks|)]
  {
    if calls != [] {
      var n := |calls| - 1;
      ConcatPrefix(chunks, size, calls[..n]);
      BatchExtends(chunks, size, n);
      assert calls[n] == BatchAt(chunks, size, n);
    }
  }

  /** Batching loses and repeats nothing: the calls, in order, are the chunks, each with 1 to `size` of them. */
  lemma BatchesPartition(chunks: seq<TextChunk>, size: nat, calls: seq<seq<TextChunk>>, k: nat)
    requires size > 0 && |calls| == BatchCount(|chunks|, size) && AreBatches(chunks, size, calls)
    ensures Concat(calls) == chunks
    ensures k < |calls| ==> 1 <= |calls[k]| <= size
    ensures k + 1 < |calls| ==> |calls[k]| == size
  {
    ConcatPrefix(chunks, size, calls);
    OffsetInside(|chunks|, size, |calls|);
    OffsetInside(|chunks|, size, k);
    OffsetInside(|chunks|, size, k + 1);
    OffsetNext(k, size);
    if k < |calls| {
      assert calls[k] == BatchAt(chunks, size, k);
    }
  }

  /** Through the OpenAI client: chunk i is stored with the vector sent under its own place in its own call. */
  lemma StoredVectorIsTheIndexedOne(dimensions: int, response: Response, vectors: seq<Vector>, place: nat)
    returns (item: Item)
    requires Acceptable(response, |vectors|, dimensions) && place < |vectors|
    requires forall j | 0 <= j < |vectors| :: vectors[response.data[j].index] == Values(response.data[j].embedding)
    ensures item in response.data && item.index == place && vectors[place] == Values(item.embedding)
    ensures forall other | other in response.data && other.index == place :: other == item
  {
    SortSorts(Position, response.data);
    SortedToPositions(Position, response.data);
    item := SortBy(Position, response.data)[place];
    assert item in multiset(response.data);
  }
}
