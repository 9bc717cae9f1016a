/** What every step of the embedding sessions keeps. */
module EmbeddingInvariant {
  import opened Wrappers
  import opened Chunking
  import opened Sorting
  import opened EmbeddingBatches
  import opened EmbeddingMachine

  /** Two configurations never share a hash. */
  ghost predicate Injective(env: Env) {
    forall a, b :: env.hash(a) == env.hash(b) ==> a == b
  }

  /** `row` stores `chunk` of `doc` under `config`. */
  predicate Stores(env: Env, row: Row, doc: DocId, config: Config, chunk: TextChunk) {
    && row.doc == doc && row.index == chunk.index && row.content == chunk.content
          && row.contentHash == chunk.contentHash
    && row.config == config && row.configHash == env.hash(config) && |row.vector| == config.dimensions
  }

  /** Exactly one row for every chunk of the document under this configuration, in order. */
  predicate FullSet(env: Env, content: string, doc: DocId, config: Config, rows: seq<Row>) {
    var split := SplitDocument(env, content, config);
    && split.Ok? && |rows| == |split.value|
    && forall i | 0 <= i < |rows| :: Stores(env, rows[i], doc, config, split.value[i])
  }

  predicate SetOk(env: Env, docs: map<DocId, string>, rows: seq<Row>, doc: DocId, config: Config)
    requires doc in docs
  {
    var stored := RowsOf(rows, doc, env.hash(config));
    stored == [] || FullSet(env, docs[doc], doc, config, stored)
  }

  predicate Referenced(docs: map<DocId, string>, rows: seq<Row>) {
    forall r | r in rows :: r.doc in docs
  }

  /** For every document and configuration the table holds nothing or the full set. */
  ghost predicate TableOk(env: Env, docs: map<DocId, string>, rows: seq<Row>) {
    Referenced(docs, rows) && forall doc, config | doc in docs :: SetOk(env, docs, rows, doc, config)
  }

  /** Events that report new chunks of this document and hash. */
  function ChangedEvents(audit: seq<Event>, doc: DocId, hash: string): nat {
    if audit == [] then 0
    else
      var last := audit[|audit| - 1];
      ChangedEvents(audit[..|audit| - 1], doc, hash)
      + if last.doc == doc && last.configHash == hash && last.changed then 1 else 0
  }

  predicate EventOk(rows: seq<Row>, audit: seq<Event>, doc: DocId, hash: string) {
    ChangedEvents(audit, doc, hash) == if RowsOf(rows, doc, hash) == [] then 0 else 1
  }

  ghost predicate EventsOk(rows: seq<Row>, audit: seq<Event>) {
    forall doc, hash :: EventOk(rows, audit, doc, hash)
  }

  /** The session has inserted a row with this key and not ended its transaction. */
  predicate Holds(env: Env, c: Call, k: Key) {
    match c.phase
    case Inserting(chunks, _, done) =>
      k.doc == c.request.doc && k.configHash == env.hash(c.request.config) && k.index < done
    case Recorded(rows, _) => HasKey(rows, k)
    case _ => false
  }

  ghost predicate HeldLocked(env: Env, w: World) {
    forall s, k | s in w.calls && Holds(env, w.calls[s], k) :: k in w.locks && w.locks[k] == s
  }

  ghost predicate LockedHeld(env: Env, w: World) {
    forall k | k in w.locks :: w.locks[k] in w.calls && Holds(env, w.calls[w.locks[k]], k)
  }

  predicate LockedFresh(w: World) {
    forall k | k in w.locks :: !HasKey(w.rows, k)
  }

  predicate ChunksOk(env: Env, docs: map<DocId, string>, r: Request, chunks: seq<TextChunk>) {
    r.doc in docs && SplitDocument(env, docs[r.doc], r.config) == Ok(chunks)
  }

  predicate Stored(env: Env, rows: seq<Row>, r: Request) {
    RowsOf(rows, r.doc, env.hash(r.config)) != []
  }

  predicate CountOk(env: Env, docs: map<DocId, string>, r: Request, count: nat) {
    && r.doc in docs && SplitDocument(env, docs[r.doc], r.config).Ok?
    && count == |SplitDocument(env, docs[r.doc], r.config).value|
  }

  predicate CallOk(env: Env, docs: map<DocId, string>, rows: seq<Row>, c: Call) {
    var r := c.request;
    match c.phase
    case Begin => true
    case Split(chunks) => ChunksOk(env, docs, r, chunks)
    case Calling(chunks) => ChunksOk(env, docs, r, chunks)
    case Answered(chunks, batch) => ChunksOk(env, docs, r, chunks) && ValidBatch(batch, |chunks|, r.config.dimensions)
    case Inserting(chunks, batch, done) =>
      ChunksOk(env, docs, r, chunks) && ValidBatch(batch, |chunks|, r.config.dimensions) && done <= |chunks|
    case Recorded(new_, event) =>
      && event.doc == r.doc && event.configHash == env.hash(r.config) && CountOk(env, docs, r, event.count)
      && (if event.changed then FullSet(env, docs[r.doc], r.doc, r.config, new_)
          else new_ == [] && Stored(env, rows, r))
    case Collided(chunks, _) => ChunksOk(env, docs, r, chunks) && Stored(env, rows, r)
    case Finished(Success(count, _, _)) => CountOk(env, docs, r, count) && Stored(env, rows, r)
    case Finished(Failure(e)) => e != StateConflict
  }

  ghost predicate CallsOk(env: Env, docs: map<DocId, string>, rows: seq<Row>, calls: map<SessionId, Call>) {
    forall s | s in calls :: CallOk(env, docs, rows, calls[s])
  }

  ghost predicate LocksOk(env: Env, w: World) {
    HeldLocked(env, w) && LockedHeld(env, w) && LockedFresh(w)
  }

  ghost predicate Inv(env: Env, w: World) {
    && Injective(env)
    && TableOk(env, w.docs, w.rows) && EventsOk(w.rows, w.audit)
    && LocksOk(env, w) && CallsOk(env, w.docs, w.rows, w.calls)
  }

  lemma InitialInv(env: Env, w: World)
    requires Injective(env) && Initial(w)
    ensures Inv(env, w)
  {
  }

  // ---------------------------------------------------------------- the table

  lemma {:induction false} RowsOfAppend(rows: seq<Row>, more: seq<Row>, doc: DocId, hash: string)
    ensures RowsOf(rows + more, doc, hash) == RowsOf(rows, doc, hash) + RowsOf(more, doc, hash)
  {
    if more == [] {
      assert rows + more == rows;
    } else {
      var last := |more| - 1;
      assert (rows + more)[..|rows + more| - 1] == rows + more[..last];
      RowsOfAppend(rows, more[..last], doc, hash);
    }
  }

  /** Rows that all belong to one document and hash. */
  predicate Uniform(rows: seq<Row>, doc: DocId, hash: string) {
    forall i | 0 <= i < |rows| :: rows[i].doc == doc && rows[i].configHash == hash
  }

  lemma {:induction false} RowsOfUniform(rows: seq<Row>, doc: DocId, hash: string, doc': DocId, hash': string)
    requires Uniform(rows, doc, hash)
    ensures RowsOf(rows, doc', hash') == if doc' == doc && hash' == hash then rows else []
  {
    if rows != [] {
      var last := |rows| - 1;
      RowsOfUniform(rows[..last], doc, hash, doc', hash');
      assert rows == rows[..last] + [rows[last]] && rows[last].doc == doc && rows[last].configHash == hash;
    }
  }

  lemma {:induction false} RowsOfMembers(rows: seq<Row>, doc: DocId, hash: string)
    ensures forall r :: r in RowsOf(rows, doc, hash) <==> r in rows && r.doc == doc && r.configHash == hash
  {
    if rows != [] {
      RowsOfMembers(rows[..|rows| - 1], doc, hash);
      assert rows == rows[..|rows| - 1] + [rows[|rows| - 1]];
    }
  }

  lemma KeyMeansStored(rows: seq<Row>, k: Key)
    requires HasKey(rows, k)
    ensures RowsOf(rows, k.doc, k.configHash) != []
  {
    RowsOfMembers(rows, k.doc, k.configHash);
  }

  lemma SplitNumbersChunks(env: Env, content: string, config: Config)
    requires SplitDocument(env, content, config).Ok?
    ensures |SplitDocument(env, content, config).value| > 0
    ensures forall i | 0 <= i < |SplitDocument(env, content, config).value| ::
              SplitDocument(env, content, config).value[i].index == i
  {
    assert IsSplit(env.digest, content, config.size, config.overlap, SplitDocument(env, content, config).value);
  }

  /** A stored set has a row at every index, the first one included. */
  lemma StoredHasKeys(env: Env, docs: map<DocId, string>, rows: seq<Row>, doc: DocId, config: Config, i: nat)
    requires doc in docs && SetOk(env, docs, rows, doc, config) && RowsOf(rows, doc, env.hash(config)) != []
    requires SplitDocument(env, docs[doc], config).Ok? && i < |SplitDocument(env, docs[doc], config).value|
    ensures HasKey(rows, Key(doc, i, env.hash(config)))
  {
    var stored := RowsOf(rows, doc, env.hash(config));
    SplitNumbersChunks(env, docs[doc], config);
    RowsOfMembers(rows, doc, env.hash(config));
    assert stored[i] in stored && KeyOf(stored[i]) == Key(doc, i, env.hash(config));
  }

  /** What classification looks at in a stored row, and what it expects of a chunk. */
  datatype Trace = Trace(index: nat, contentHash: string, config: Config, configHash: string)

  function TracesOf(rows: seq<Row>): seq<Trace> {
    seq(|rows|, i requires 0 <= i < |rows| =>
      Trace(rows[i].index, rows[i].contentHash, rows[i].config, rows[i].configHash))
  }

  function ExpectedTraces(chunks: seq<TextChunk>, config: Config, hash: string): seq<Trace> {
    seq(|chunks|, i requires 0 <= i < |chunks| => Trace(chunks[i].index, chunks[i].contentHash, config, hash))
  }

  /** Classification compares two lists: nothing stored, exactly the expected rows, or anything else. */
  lemma ClassifyComparesLists(states: seq<Row>, chunks: seq<TextChunk>, config: Config, hash: string)
    ensures Classify(states, chunks, config, hash)
            == if states == [] then Missing
               else if TracesOf(states) == ExpectedTraces(chunks, config, hash) then Complete else Inconsistent
  {
    var stored, expected := TracesOf(states), ExpectedTraces(chunks, config, hash);
    if stored == expected {
      assert |states| == |stored| == |expected| == |chunks|;
      forall i | 0 <= i < |states| ensures Matches(states[i], chunks[i], config, hash) {
        assert stored[i] == expected[i];
      }
    }
  }

  /** Reading a good table never finds anything between nothing and everything. */
  lemma StateIsNothingOrAll(env: Env, docs: map<DocId, string>, rows: seq<Row>, doc: DocId, config: Config,
                            chunks: seq<TextChunk>)
    requires doc in docs && SetOk(env, docs, rows, doc, config) && SplitDocument(env, docs[doc], config) == Ok(chunks)
    ensures Classify(States(rows, doc, env.hash(config)), chunks, config, env.hash(config))
            == if RowsOf(rows, doc, env.hash(config)) == [] then Missing else Complete
  {
    var stored := RowsOf(rows, doc, env.hash(config));
    SplitNumbersChunks(env, docs[doc], config);
    forall i, j | 0 <= i < j < |stored| ensures ByIndex(stored[i]) <= ByIndex(stored[j]) {
    }
    SortedStays(ByIndex, stored);
  }

  // ---------------------------------------------------------------- steps that leave the tables alone

  /** Session s only moves on; what it holds stays as it is. */
  ghost predicate Moved(env: Env, w: World, w': World, s: SessionId) {
    && w'.docs == w.docs && w'.rows == w.rows && w'.audit == w.audit && w'.locks == w.locks
    && s in w'.calls && w'.calls == w.calls[s := w'.calls[s]]
    && (forall k :: Holds(env, w'.calls[s], k) <==> s in w.calls && Holds(env, w.calls[s], k))
  }

  lemma MovedKeeps(env: Env, w: World, w': World, s: SessionId)
    requires Inv(env, w) && Moved(env, w, w', s) && CallOk(env, w.docs, w.rows, w'.calls[s])
    ensures Inv(env, w')
  {
  }

  lemma RollbackKeeps(env: Env, w: World, s: SessionId, phase: Phase)
    requires Inv(env, w) && s in w.calls && CallOk(env, w.docs, w.rows, w.calls[s].(phase := phase))
    requires !phase.Inserting? && !phase.Recorded?
    ensures Inv(env, Rollback(w, s, phase))
  {
    var w' := Rollback(w, s, phase);
    assert LockedHeld(env, w') by {
      forall k | k in w'.locks ensures w'.locks[k] in w'.calls && Holds(env, w'.calls[w'.locks[k]], k) {
        assert k in w.locks;
      }
    }
  }

  lemma FailKeeps(env: Env, w: World, s: SessionId, e: Error)
    requires Inv(env, w) && s in w.calls && e != StateConflict
    ensures Inv(env, Fail(w, s, e))
  {
    RollbackKeeps(env, w, s, Finished(Failure(e)));
  }

  // ---------------------------------------------------------------- reading and deciding

  lemma ReadDocumentKeeps(env: Env, w: World, s: SessionId)
    requires Inv(env, w) && s in w.calls && w.calls[s].phase.Begin?
    ensures Inv(env, ReadDocument(env, w, s))
  {
    var r := w.calls[s].request;
    if r.doc !in w.docs {
      FailKeeps(env, w, s, DocumentNotFound);
    } else if SplitDocument(env, w.docs[r.doc], r.config).Err? {
      FailKeeps(env, w, s, BadSplit(SplitDocument(env, w.docs[r.doc], r.config).error));
    } else {
      MovedKeeps(env, w, ReadDocument(env, w, s), s);
    }
  }

  lemma DecideKeeps(env: Env, w: World, s: SessionId, chunks: seq<TextChunk>, tokens: nat, missing: Phase)
    requires Inv(env, w) && s in w.calls && ChunksOk(env, w.docs, w.calls[s].request, chunks)
    requires !w.calls[s].phase.Inserting? && !w.calls[s].phase.Recorded?
    requires !Stored(env, w.rows, w.calls[s].request) ==>
               CallOk(env, w.docs, w.rows, w.calls[s].(phase := missing))
               && !missing.Recorded? && (missing.Inserting? ==> missing.done == 0)
    ensures Inv(env, Decide(env, w, s, chunks, tokens, missing))
    ensures Stored(env, w.rows, w.calls[s].request) ==>
              Decide(env, w, s, chunks, tokens, missing)
              == Put(w, s, Recorded([], EventOf(env, w.calls[s].request, |chunks|, false, tokens)))
  {
    var r := w.calls[s].request;
    assert SetOk(env, w.docs, w.rows, r.doc, r.config);
    StateIsNothingOrAll(env, w.docs, w.rows, r.doc, r.config, chunks);
    MovedKeeps(env, w, Decide(env, w, s, chunks, tokens, missing), s);
  }

  lemma ReplyKeeps(env: Env, w: World, s: SessionId, batch: Option<Batch>)
    requires Inv(env, w) && Allowed(env, w, Reply(s, batch))
    ensures Inv(env, Apply(env, w, Reply(s, batch)))
  {
    if batch == None {
      FailKeeps(env, w, s, ProviderFailed);
    } else {
      MovedKeeps(env, w, Apply(env, w, Reply(s, batch)), s);
    }
  }

  // ---------------------------------------------------------------- inserting

  lemma RecordsAreFullSet(env: Env, docs: map<DocId, string>, r: Request, chunks: seq<TextChunk>, batch: Batch)
    requires ChunksOk(env, docs, r, chunks) && ValidBatch(batch, |chunks|, r.config.dimensions)
    ensures FullSet(env, docs[r.doc], r.doc, r.config, Records(env, r, chunks, batch))
  {
  }

  /** The keys of a full set are the document's indexes from zero on. */
  lemma FullSetKeys(env: Env, content: string, doc: DocId, config: Config, rows: seq<Row>, k: Key)
    requires FullSet(env, content, doc, config, rows)
    ensures HasKey(rows, k) <==> k.doc == doc && k.configHash == env.hash(config) && k.index < |rows|
    ensures |rows| > 0
  {
    SplitNumbersChunks(env, content, config);
    if k.doc == doc && k.configHash == env.hash(config) && k.index < |rows| {
      assert KeyOf(rows[k.index]) == k;
    }
  }

  lemma RecordKeeps(env: Env, w: World, s: SessionId)
    requires Inv(env, w) && s in w.calls && w.calls[s].phase.Inserting?
          && w.calls[s].phase.done == |w.calls[s].phase.chunks|
    ensures Inv(env, Insert(env, w, s))
  {
    var r, p := w.calls[s].request, w.calls[s].phase;
    var w' := Insert(env, w, s);
    RecordsAreFullSet(env, w.docs, r, p.chunks, p.batch);
    forall k ensures Holds(env, w'.calls[s], k) <==> Holds(env, w.calls[s], k) {
      FullSetKeys(env, w.docs[r.doc], r.doc, r.config, Records(env, r, p.chunks, p.batch), k);
    }
    MovedKeeps(env, w, w', s);
  }

  lemma NextKeyIs(env: Env, docs: map<DocId, string>, rows: seq<Row>, c: Call)
    requires CallOk(env, docs, rows, c) && c.phase.Inserting? && c.phase.done < |c.phase.chunks|
    ensures NextKey(env, c) == Key(c.request.doc, c.phase.done, env.hash(c.request.config))
  {
    SplitNumbersChunks(env, docs[c.request.doc], c.request.config);
  }

  lemma LockKeepsLocks(env: Env, w: World, w': World, s: SessionId, k: Key)
    requires LocksOk(env, w) && s in w.calls
    requires w'.rows == w.rows && w'.locks == w.locks[k := s]
    requires s in w'.calls && w'.calls == w.calls[s := w'.calls[s]]
    requires forall k' :: Holds(env, w'.calls[s], k') <==> k' == k || Holds(env, w.calls[s], k')
    requires k in w.locks ==> w.locks[k] == s
    requires !HasKey(w.rows, k)
    ensures LocksOk(env, w')
  {
    assert HeldLocked(env, w') by {
      forall t, k' | t in w'.calls && Holds(env, w'.calls[t], k') ensures k' in w'.locks && w'.locks[k'] == t {
        if t != s {
          assert Holds(env, w.calls[t], k');
        }
      }
    }
    assert LockedHeld(env, w') by {
      forall k' | k' in w'.locks ensures w'.locks[k'] in w'.calls && Holds(env, w'.calls[w'.locks[k']], k') {
        if k' != k {
          assert k' in w.locks;
        }
      }
    }
  }

  lemma InsertKeeps(env: Env, w: World, s: SessionId)
    requires Inv(env, w) && s in w.calls && w.calls[s].phase.Inserting? && !Blocked(env, w, s)
    ensures Inv(env, Insert(env, w, s))
  {
    var c := w.calls[s];
    var p := c.phase;
    assert CallOk(env, w.docs, w.rows, c);
    if p.done == |p.chunks| {
      RecordKeeps(env, w, s);
    } else {
      var k := NextKey(env, c);
      NextKeyIs(env, w.docs, w.rows, c);
      if HasKey(w.rows, k) {
        KeyMeansStored(w.rows, k);
        RollbackKeeps(env, w, s, Collided(p.chunks, p.batch.tokens));
      } else {
        LockKeepsLocks(env, w, Insert(env, w, s), s, k);
      }
    }
  }

  // ---------------------------------------------------------------- committing

  lemma SetAfterCommit(env: Env, docs: map<DocId, string>, rows: seq<Row>, doc: DocId, config: Config, new_: seq<Row>,
                       d: DocId, c: Config)
    requires Injective(env) && doc in docs && d in docs && SetOk(env, docs, rows, d, c)
    requires FullSet(env, docs[doc], doc, config, new_) && RowsOf(rows, doc, env.hash(config)) == []
    ensures SetOk(env, docs, rows + new_, d, c)
  {
    RowsOfAppend(rows, new_, d, env.hash(c));
    RowsOfUniform(new_, doc, env.hash(config), d, env.hash(c));
    if d == doc && env.hash(c) == env.hash(config) {
      assert c == config;
      assert RowsOf(rows + new_, d, env.hash(c)) == new_;
    } else {
      assert RowsOf(rows + new_, d, env.hash(c)) == RowsOf(rows, d, env.hash(c));
    }
  }

  lemma CommitKeepsSets(env: Env, docs: map<DocId, string>, rows: seq<Row>, doc: DocId, config: Config, new_: seq<Row>)
    requires Injective(env) && TableOk(env, docs, rows) && doc in docs
    requires FullSet(env, docs[doc], doc, config, new_) && RowsOf(rows, doc, env.hash(config)) == []
    ensures TableOk(env, docs, rows + new_)
  {
    forall d, c | d in docs ensures SetOk(env, docs, rows + new_, d, c) {
      assert SetOk(env, docs, rows, d, c);
      SetAfterCommit(env, docs, rows, doc, config, new_, d, c);
    }
    forall r | r in rows + new_ ensures r.doc in docs {
      assert r in rows || r in new_;
    }
  }

  lemma CommitKeepsEvents(rows: seq<Row>, audit: seq<Event>, doc: DocId, hash: string, new_: seq<Row>, event: Event)
    requires EventsOk(rows, audit) && Uniform(new_, doc, hash)
    requires event.doc == doc && event.configHash == hash
    requires event.changed ==> new_ != [] && RowsOf(rows, doc, hash) == []
    requires !event.changed ==> new_ == []
    ensures EventsOk(rows + new_, audit + [event])
  {
    forall d, h ensures EventOk(rows + new_, audit + [event], d, h) {
      assert EventOk(rows, audit, d, h);
      RowsOfAppend(rows, new_, d, h);
      RowsOfUniform(new_, doc, hash, d, h);
      assert (audit + [event])[..|audit|] == audit;
    }
  }

  /** Rows never go away, documents never change. */
  lemma CallOkGrows(env: Env, docs: map<DocId, string>, rows: seq<Row>, docs': map<DocId, string>, more: seq<Row>,
                    c: Call)
    requires CallOk(env, docs, rows, c)
    requires forall d | d in docs :: d in docs' && docs'[d] == docs[d]
    ensures CallOk(env, docs', rows + more, c)
  {
    RowsOfAppend(rows, more, c.request.doc, env.hash(c.request.config));
  }

  lemma CommitKeepsLocks(env: Env, w: World, s: SessionId, outcome: Outcome)
    requires LocksOk(env, w) && s in w.calls && w.calls[s].phase.Recorded?
    ensures LocksOk(env, Commit(w, s, outcome))
  {
    var w' := Commit(w, s, outcome);
    assert HeldLocked(env, w') by {
      forall t, k | t in w'.calls && Holds(env, w'.calls[t], k) ensures k in w'.locks && w'.locks[k] == t {
        assert t != s && Holds(env, w.calls[t], k);
      }
    }
    assert LockedHeld(env, w') by {
      forall k | k in w'.locks ensures w'.locks[k] in w'.calls && Holds(env, w'.calls[w'.locks[k]], k) {
        assert k in w.locks;
      }
    }
    assert LockedFresh(w') by {
      forall k | k in w'.locks ensures !HasKey(w'.rows, k) {
        assert k in w.locks && !HasKey(w.rows, k);
        assert HasKey(w.calls[s].phase.rows, k) <==> Holds(env, w.calls[s], k);
      }
    }
  }

  /** A good set is stored exactly when its first key is taken. */
  lemma StoredMeansFirstKey(env: Env, docs: map<DocId, string>, rows: seq<Row>, r: Request)
    requires r.doc in docs && SetOk(env, docs, rows, r.doc, r.config) && SplitDocument(env, docs[r.doc], r.config).Ok?
    ensures Stored(env, rows, r) <==> HasKey(rows, Key(r.doc, 0, env.hash(r.config)))
  {
    if Stored(env, rows, r) {
      SplitNumbersChunks(env, docs[r.doc], r.config);
      StoredHasKeys(env, docs, rows, r.doc, r.config, 0);
    }
    if HasKey(rows, Key(r.doc, 0, env.hash(r.config))) {
      KeyMeansStored(rows, Key(r.doc, 0, env.hash(r.config)));
    }
  }

  /** The rows about to be committed are the first ones of their set. */
  lemma CommitIsFirst(env: Env, w: World, s: SessionId)
    requires Inv(env, w) && s in w.calls && w.calls[s].phase.Recorded? && w.calls[s].phase.event.changed
    ensures !Stored(env, w.rows, w.calls[s].request)
  {
    var c := w.calls[s];
    var r := c.request;
    assert CallOk(env, w.docs, w.rows, c);
    var k := Key(r.doc, 0, env.hash(r.config));
    FullSetKeys(env, w.docs[r.doc], r.doc, r.config, c.phase.rows, k);
    assert Holds(env, c, k) && k in w.locks;
    assert SetOk(env, w.docs, w.rows, r.doc, r.config);
    StoredMeansFirstKey(env, w.docs, w.rows, r);
  }

  lemma CommitKeeps(env: Env, w: World, s: SessionId, outcome: Outcome)
    requires Inv(env, w) && s in w.calls && w.calls[s].phase.Recorded?
    requires outcome == OutcomeOf(w.calls[s].phase.event) || outcome == Failure(Unavailable)
    ensures Inv(env, Commit(w, s, outcome))
  {
    var c := w.calls[s];
    var r, p := c.request, c.phase;
    var w' := Commit(w, s, outcome);
    assert CallOk(env, w.docs, w.rows, c);
    CommitKeepsLocks(env, w, s, outcome);
    RowsOfAppend(w.rows, p.rows, r.doc, env.hash(r.config));
    if p.event.changed {
      CommitIsFirst(env, w, s);
      FullSetKeys(env, w.docs[r.doc], r.doc, r.config, p.rows, Key(r.doc, 0, env.hash(r.config)));
      CommitKeepsSets(env, w.docs, w.rows, r.doc, r.config, p.rows);
      RowsOfUniform(p.rows, r.doc, env.hash(r.config), r.doc, env.hash(r.config));
    } else {
      assert w'.rows == w.rows;
    }
    CommitKeepsEvents(w.rows, w.audit, r.doc, env.hash(r.config), p.rows, p.event);
    assert CallsOk(env, w'.docs, w'.rows, w'.calls) by {
      forall t | t in w'.calls ensures CallOk(env, w'.docs, w'.rows, w'.calls[t]) {
        if t != s {
          assert CallOk(env, w.docs, w.rows, w.calls[t]);
          CallOkGrows(env, w.docs, w.rows, w.docs, p.rows, w.calls[t]);
        }
      }
    }
  }

  // ---------------------------------------------------------------- every step

  lemma {:induction false} NoRowsYet(docs: map<DocId, string>, rows: seq<Row>, doc: DocId, hash: string)
    requires Referenced(docs, rows) && doc !in docs
    ensures RowsOf(rows, doc, hash) == []
  {
    if rows != [] {
      NoRowsYet(docs, rows[..|rows| - 1], doc, hash);
    }
  }

  lemma IngestKeeps(env: Env, w: World, doc: DocId, content: string)
    requires Inv(env, w) && doc !in w.docs
    ensures Inv(env, w.(docs := w.docs[doc := content]))
  {
    var docs := w.docs[doc := content];
    assert TableOk(env, docs, w.rows) by {
      forall d, c | d in docs ensures SetOk(env, docs, w.rows, d, c) {
        if d == doc {
          NoRowsYet(w.docs, w.rows, d, env.hash(c));
        } else {
          assert SetOk(env, w.docs, w.rows, d, c);
        }
      }
    }
    forall s | s in w.calls ensures CallOk(env, docs, w.rows, w.calls[s]) {
      assert CallOk(env, w.docs, w.rows, w.calls[s]);
      CallOkGrows(env, w.docs, w.rows, docs, [], w.calls[s]);
      assert w.rows + [] == w.rows;
    }
  }

  lemma AdvanceKeeps(env: Env, w: World, s: SessionId)
    requires Inv(env, w) && Allowed(env, w, Advance(s))
    ensures Inv(env, NextStep(env, w, s))
  {
    assert CallOk(env, w.docs, w.rows, w.calls[s]);
    match w.calls[s].phase {
      case Begin => ReadDocumentKeeps(env, w, s);
      case Split(chunks) => DecideKeeps(env, w, s, chunks, 0, Calling(chunks));
      case Answered(chunks, batch) => DecideKeeps(env, w, s, chunks, batch.tokens, Inserting(chunks, batch, 0));
      case Inserting(_, _, _) => InsertKeeps(env, w, s);
      case Recorded(_, event) => CommitKeeps(env, w, s, OutcomeOf(event));
      case Collided(chunks, tokens) => DecideKeeps(env, w, s, chunks, tokens, Finished(Failure(Unavailable)));
    }
  }

  lemma ApplyKeeps(env: Env, w: World, a: Action)
    requires Inv(env, w) && Allowed(env, w, a)
    ensures Inv(env, Apply(env, w, a))
  {
    match a {
      case Ingest(doc, content) => IngestKeeps(env, w, doc, content);
      case Open(s, r) => MovedKeeps(env, w, Apply(env, w, a), s);
      case Advance(s) => AdvanceKeeps(env, w, s);
      case Reply(s, batch) => ReplyKeeps(env, w, s, batch);
      case Fault(s) => FailKeeps(env, w, s, Unavailable);
      case LoseAcknowledgement(s) => CommitKeeps(env, w, s, Failure(Unavailable));
    }
  }

  lemma {:induction false} RunInv(env: Env, ws: seq<World>, n: nat)
    requires Injective(env) && Run(env, ws) && n < |ws|
    ensures Inv(env, ws[n])
  {
    if n == 0 {
      InitialInv(env, ws[0]);
    } else {
      RunInv(env, ws, n - 1);
      assert StepAt(env, ws, n - 1);
      var a :| Allowed(env, ws[n - 1], a) && ws[n] == Apply(env, ws[n - 1], a);
      ApplyKeeps(env, ws[n - 1], a);
    }
  }
}
