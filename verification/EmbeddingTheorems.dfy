/** What concurrent embedding guarantees, for every reachable state. */
module EmbeddingTheorems {
  import opened Wrappers
  import opened Chunking
  import opened Sorting
  import opened EmbeddingBatches
  import opened EmbeddingMachine
  import opened EmbeddingInvariant

  function Last(ws: seq<World>): World
    requires |ws| > 0
  {
    ws[|ws| - 1]
  }

  // ---------------------------------------------------------------- whole sets

  /** For every document and configuration, the committed chunks are none or exactly the full split. */
  lemma StoredSetsAreWhole(env: Env, ws: seq<World>, doc: DocId, config: Config)
    requires Injective(env) && Run(env, ws) && doc in Last(ws).docs
    ensures var stored := RowsOf(Last(ws).rows, doc, env.hash(config));
            stored == [] || FullSet(env, Last(ws).docs[doc], doc, config, stored)
  {
    RunInv(env, ws, |ws| - 1);
    assert SetOk(env, Last(ws).docs, Last(ws).rows, doc, config);
  }

  function ChunksIn(rows: seq<Row>): seq<TextChunk> {
    seq(|rows|, i requires 0 <= i < |rows| => TextChunk(rows[i].index, rows[i].content, rows[i].contentHash))
  }

  lemma FullSetRebuilds(env: Env, content: string, doc: DocId, config: Config, rows: seq<Row>)
    requires FullSet(env, content, doc, config, rows)
    ensures config.overlap >= 0 && Reassemble(ChunksIn(rows), config.overlap) == content
  {
    var chunks := AllChunks(env.digest, content, config.size, config.overlap);
    assert ChunksIn(rows) == chunks;
    SplitRoundTrip(env.digest, content, config.size, config.overlap, chunks);
  }

  lemma FullSetIsSorted(env: Env, content: string, doc: DocId, config: Config, rows: seq<Row>)
    requires FullSet(env, content, doc, config, rows)
    ensures SortBy(ByIndex, rows) == rows
  {
    SplitNumbersChunks(env, content, config);
    forall i, j | 0 <= i < j < |rows| ensures ByIndex(rows[i]) <= ByIndex(rows[j]) {
    }
    SortedStays(ByIndex, rows);
  }

  /** Whatever is stored for a document puts the document together again. */
  lemma StoredChunksRebuildTheDocument(env: Env, ws: seq<World>, doc: DocId, config: Config)
    requires Injective(env) && Run(env, ws) && doc in Last(ws).docs
    requires RowsOf(Last(ws).rows, doc, env.hash(config)) != []
    ensures config.overlap >= 0
    ensures Reassemble(ChunksIn(States(Last(ws).rows, doc, env.hash(config))), config.overlap) == Last(ws).docs[doc]
  {
    StoredSetsAreWhole(env, ws, doc, config);
    var stored := RowsOf(Last(ws).rows, doc, env.hash(config));
    FullSetIsSorted(env, Last(ws).docs[doc], doc, config, stored);
    FullSetRebuilds(env, Last(ws).docs[doc], doc, config, stored);
  }

  /** No read ever finds an inconsistent set, whatever is still running. */
  lemma NothingIsInconsistent(env: Env, ws: seq<World>, r: Request, chunks: seq<TextChunk>)
    requires Injective(env) && Run(env, ws) && ChunksOk(env, Last(ws).docs, r, chunks)
    ensures StateNow(env, Last(ws), r, chunks) == if Stored(env, Last(ws).rows, r) then Complete else Missing
  {
    var w := Last(ws);
    RunInv(env, ws, |ws| - 1);
    assert SetOk(env, w.docs, w.rows, r.doc, r.config);
    StateIsNothingOrAll(env, w.docs, w.rows, r.doc, r.config, chunks);
  }

  /** So no call ever ends with a state conflict. */
  lemma NoCallConflicts(env: Env, ws: seq<World>, s: SessionId)
    requires Injective(env) && Run(env, ws) && s in Last(ws).calls
    ensures Last(ws).calls[s].phase != Finished(Failure(StateConflict))
  {
    RunInv(env, ws, |ws| - 1);
    assert CallOk(env, Last(ws).docs, Last(ws).rows, Last(ws).calls[s]);
  }

  /** A call that lost the race for a key goes on to report the winner's chunks, all of them, as unchanged. */
  lemma LostRaceResolvesToComplete(env: Env, ws: seq<World>, s: SessionId)
    requires Injective(env) && Run(env, ws) && s in Last(ws).calls && Last(ws).calls[s].phase.Collided?
    ensures var c := Last(ws).calls[s];
            NextStep(env, Last(ws), s)
            == Put(Last(ws), s, Recorded([], EventOf(env, c.request, |c.phase.chunks|, false, c.phase.tokens)))
  {
    var w := Last(ws);
    var c := w.calls[s];
    RunInv(env, ws, |ws| - 1);
    assert CallOk(env, w.docs, w.rows, c);
    DecideKeeps(env, w, s, c.phase.chunks, c.phase.tokens, Finished(Failure(Unavailable)));
  }

  /** Exactly one event says `changed` for a stored set, and none for a set that is not stored. */
  lemma OneChangedEventPerSet(env: Env, ws: seq<World>, doc: DocId, hash: string)
    requires Injective(env) && Run(env, ws)
    ensures ChangedEvents(Last(ws).audit, doc, hash) == if RowsOf(Last(ws).rows, doc, hash) == [] then 0 else 1
  {
    RunInv(env, ws, |ws| - 1);
    assert EventOk(Last(ws).rows, Last(ws).audit, doc, hash);
  }

  /** A call that succeeded found or left the full set, and counted it. */
  lemma SuccessMeansStored(env: Env, ws: seq<World>, s: SessionId)
    requires Injective(env) && Run(env, ws) && s in Last(ws).calls
    requires Last(ws).calls[s].phase.Finished? && Last(ws).calls[s].phase.outcome.Success?
    ensures var r := Last(ws).calls[s].request;
            && r.doc in Last(ws).docs
            && FullSet(env, Last(ws).docs[r.doc], r.doc, r.config, RowsOf(Last(ws).rows, r.doc, env.hash(r.config)))
            && Last(ws).calls[s].phase.outcome.count == |RowsOf(Last(ws).rows, r.doc, env.hash(r.config))|
  {
    var w := Last(ws);
    var r := w.calls[s].request;
    RunInv(env, ws, |ws| - 1);
    assert CallOk(env, w.docs, w.rows, w.calls[s]);
    StoredSetsAreWhole(env, ws, r.doc, r.config);
  }

  // ---------------------------------------------------------------- stored sets stay

  predicate Grew(w: World, w': World) {
    && w.rows <= w'.rows && w.audit <= w'.audit
    && forall d | d in w.docs :: d in w'.docs && w'.docs[d] == w.docs[d]
  }

  lemma GrewFurther(w: World, w': World, w'': World)
    requires Grew(w, w') && Grew(w', w'')
    ensures Grew(w, w'')
  {
  }

  predicate SameTables(w: World, w': World) {
    w'.docs == w.docs && w'.rows == w.rows && w'.audit == w.audit
  }

  lemma DecideWritesNothing(env: Env, w: World, s: SessionId, chunks: seq<TextChunk>, tokens: nat, missing: Phase)
    requires s in w.calls
    ensures SameTables(w, Decide(env, w, s, chunks, tokens, missing))
  {
  }

  lemma NextStepGrows(env: Env, w: World, s: SessionId)
    requires s in w.calls
    ensures Grew(w, NextStep(env, w, s))
  {
    match w.calls[s].phase {
      case Begin => assert SameTables(w, ReadDocument(env, w, s));
      case Split(chunks) => DecideWritesNothing(env, w, s, chunks, 0, Calling(chunks));
      case Answered(chunks, batch) => DecideWritesNothing(env, w, s, chunks, batch.tokens, Inserting(chunks, batch, 0));
      case Inserting(_, _, _) => assert SameTables(w, Insert(env, w, s));
      case Collided(chunks, tokens) => DecideWritesNothing(env, w, s, chunks, tokens, Finished(Failure(Unavailable)));
      case Recorded(_, event) => assert Grew(w, Commit(w, s, OutcomeOf(event)));
      case _ =>
    }
  }

  lemma ApplyGrows(env: Env, w: World, a: Action)
    requires Allowed(env, w, a)
    ensures Grew(w, Apply(env, w, a))
  {
    match a {
      case Advance(s) => NextStepGrows(env, w, s);
      case LoseAcknowledgement(s) => assert Grew(w, Commit(w, s, Failure(Unavailable)));
      case _ =>
    }
  }

  lemma {:induction false} TableOnlyGrows(env: Env, ws: seq<World>, m: nat, n: nat)
    requires Run(env, ws) && m <= n < |ws|
    ensures Grew(ws[m], ws[n])
  {
    if m < n {
      TableOnlyGrows(env, ws, m, n - 1);
      assert StepAt(env, ws, n - 1);
      var a :| Allowed(env, ws[n - 1], a) && ws[n] == Apply(env, ws[n - 1], a);
      ApplyGrows(env, ws[n - 1], a);
      GrewFurther(ws[m], ws[n - 1], ws[n]);
    }
  }

  lemma FullSetsHaveOneSize(env: Env, content: string, doc: DocId, config: Config, a: seq<Row>, b: seq<Row>)
    requires FullSet(env, content, doc, config, a) && FullSet(env, content, doc, config, b)
    ensures |a| == |b|
  {
  }

  /** Once stored, a set is never added to, replaced or removed, vectors included. */
  lemma StoredSetsStay(env: Env, ws: seq<World>, m: nat, n: nat, doc: DocId, config: Config)
    requires Injective(env) && Run(env, ws) && m <= n < |ws| && doc in ws[m].docs
    requires RowsOf(ws[m].rows, doc, env.hash(config)) != []
    ensures RowsOf(ws[n].rows, doc, env.hash(config)) == RowsOf(ws[m].rows, doc, env.hash(config))
  {
    TableOnlyGrows(env, ws, m, n);
    RunInv(env, ws, m);
    RunInv(env, ws, n);
    var before, after := RowsOf(ws[m].rows, doc, env.hash(config)), RowsOf(ws[n].rows, doc, env.hash(config));
    RowsOfAppend(ws[m].rows, ws[n].rows[|ws[m].rows|..], doc, env.hash(config));
    assert ws[n].rows == ws[m].rows + ws[n].rows[|ws[m].rows|..];
    assert before <= after;
    assert SetOk(env, ws[m].docs, ws[m].rows, doc, config) && SetOk(env, ws[n].docs, ws[n].rows, doc, config);
    FullSetsHaveOneSize(env, ws[n].docs[doc], doc, config, before, after);
  }

  // ---------------------------------------------------------------- locks

  /** While the provider is being called, the session holds no lock on any row. */
  lemma ProviderWaitHoldsNothing(env: Env, ws: seq<World>, s: SessionId, k: Key)
    requires Injective(env) && Run(env, ws) && s in Last(ws).calls && Last(ws).calls[s].phase.Calling?
    ensures k in Last(ws).locks ==> Last(ws).locks[k] != s
  {
    var w := Last(ws);
    RunInv(env, ws, |ws| - 1);
    assert LockedHeld(env, w);
    assert !Holds(env, w.calls[s], k);
  }

  /** A session that holds one key of a set holds the set's first key. */
  lemma HoldsFirst(env: Env, docs: map<DocId, string>, rows: seq<Row>, c: Call, k: Key)
    requires CallOk(env, docs, rows, c) && Holds(env, c, k)
    ensures Holds(env, c, Key(k.doc, 0, k.configHash))
  {
    if c.phase.Recorded? {
      if c.phase.event.changed {
        FullSetKeys(env, docs[c.request.doc], c.request.doc, c.request.config, c.phase.rows, k);
        var first := Key(k.doc, 0, k.configHash);
        FullSetKeys(env, docs[c.request.doc], c.request.doc, c.request.config, c.phase.rows, first);
      }
    }
  }

  lemma FirstHolderOwnsFirst(env: Env, w: World, t: SessionId, k: Key)
    requires HeldLocked(env, w) && t in w.calls
    requires CallOk(env, w.docs, w.rows, w.calls[t]) && Holds(env, w.calls[t], k)
    ensures Key(k.doc, 0, k.configHash) in w.locks && w.locks[Key(k.doc, 0, k.configHash)] == t
  {
    HoldsFirst(env, w.docs, w.rows, w.calls[t], k);
    var first := Key(k.doc, 0, k.configHash);
    assert Holds(env, w.calls[t], first);
  }

  lemma HoldsNothing(env: Env, w: World, s: SessionId)
    requires LockedHeld(env, w) && s in w.calls && forall k :: !Holds(env, w.calls[s], k)
    ensures forall k | k in w.locks :: w.locks[k] != s
  {
  }

  /** Only a first insert ever waits, so a session that waits holds nothing that anyone could wait for. */
  lemma OnlyFirstInsertsWait(env: Env, w: World, s: SessionId)
    requires Inv(env, w) && s in w.calls && Blocked(env, w, s)
    ensures w.calls[s].phase.done == 0
    ensures forall k | k in w.locks :: w.locks[k] != s
  {
    var c := w.calls[s];
    assert CallOk(env, w.docs, w.rows, c);
    NextKeyIs(env, w.docs, w.rows, c);
    var k := NextKey(env, c);
    var t := w.locks[k];
    assert Holds(env, w.calls[t], k) && CallOk(env, w.docs, w.rows, w.calls[t]);
    FirstHolderOwnsFirst(env, w, t, k);
    assert !Holds(env, c, Key(k.doc, 0, k.configHash));
    HoldsNothing(env, w, s);
  }

  /** No deadlock: whoever a session waits for can go on at once. */
  lemma WaitersWaitForRunners(env: Env, ws: seq<World>, s: SessionId)
    requires Injective(env) && Run(env, ws) && s in Last(ws).calls && Blocked(env, Last(ws), s)
    ensures var holder := Last(ws).locks[NextKey(env, Last(ws).calls[s])];
            holder != s && Allowed(env, Last(ws), Advance(holder))
  {
    var w := Last(ws);
    RunInv(env, ws, |ws| - 1);
    var k := NextKey(env, w.calls[s]);
    var holder := w.locks[k];
    assert Holds(env, w.calls[holder], k);
    if Blocked(env, w, holder) {
      OnlyFirstInsertsWait(env, w, holder);
    }
  }

  /** Once its first row is in, a call can no longer lose the race. */
  lemma FirstInsertDecides(env: Env, ws: seq<World>, s: SessionId)
    requires Injective(env) && Run(env, ws) && s in Last(ws).calls && Last(ws).calls[s].phase.Inserting?
    requires 0 < Last(ws).calls[s].phase.done < |Last(ws).calls[s].phase.chunks|
    ensures !Blocked(env, Last(ws), s) && !HasKey(Last(ws).rows, NextKey(env, Last(ws).calls[s]))
  {
    var w := Last(ws);
    var c := w.calls[s];
    RunInv(env, ws, |ws| - 1);
    assert CallOk(env, w.docs, w.rows, c);
    NextKeyIs(env, w.docs, w.rows, c);
    var first := Key(c.request.doc, 0, env.hash(c.request.config));
    assert Holds(env, c, first) && first in w.locks && w.locks[first] == s;
    assert SetOk(env, w.docs, w.rows, c.request.doc, c.request.config);
    StoredMeansFirstKey(env, w.docs, w.rows, c.request);
    assert !Stored(env, w.rows, c.request);
    if Blocked(env, w, s) {
      OnlyFirstInsertsWait(env, w, s);
    }
    if HasKey(w.rows, NextKey(env, c)) {
      KeyMeansStored(w.rows, NextKey(env, c));
    }
  }

  // ---------------------------------------------------------------- an undisturbed call stores

  /** Up to `n` steps of session `s` and of no one else. */
  function Settle(env: Env, w: World, s: SessionId, n: nat): World
    decreases n
  {
    if n == 0 || !Live(w, s) then w else Settle(env, NextStep(env, w, s), s, n - 1)
  }

  /** The call ends by storing exactly its chunks with its vectors, and says so. */
  predicate StoresAll(env: Env, w: World, w': World, s: SessionId, r: Request, chunks: seq<TextChunk>, batch: Batch)
    requires |batch.vectors| == |chunks|
  {
    && s in w'.calls && w'.calls[s].phase == Finished(Success(|chunks|, true, batch.tokens))
    && w'.rows == w.rows + Records(env, r, chunks, batch)
    && w'.audit == w.audit + [Embedded(r.actor, r.doc, env.hash(r.config), |chunks|, true, batch.tokens)]
  }

  /** The rows added are the chunks in order, each with the vector at its own place. */
  predicate NewRows(w: World, w': World, r: Request, chunks: seq<TextChunk>, batch: Batch)
    requires |batch.vectors| == |chunks|
  {
    && |w'.rows| == |w.rows| + |chunks| && w.rows <= w'.rows
    && forall i | 0 <= i < |chunks| ::
         && w'.rows[|w.rows| + i].vector == batch.vectors[i]
         && w'.rows[|w.rows| + i].index == chunks[i].index && w'.rows[|w.rows| + i].content == chunks[i].content
         && w'.rows[|w.rows| + i].doc == r.doc && w'.rows[|w.rows| + i].config == r.config
  }

  lemma StoredRowsAre(env: Env, w: World, w': World, s: SessionId, r: Request, chunks: seq<TextChunk>, batch: Batch)
    requires |batch.vectors| == |chunks| && StoresAll(env, w, w', s, r, chunks, batch)
    ensures NewRows(w, w', r, chunks, batch)
  {
  }

  predicate OnlyOwnLocks(w: World, s: SessionId) {
    forall k | k in w.locks :: w.locks[k] == s
  }

  lemma RecordAlone(env: Env, w: World, s: SessionId, n: nat)
    requires s in w.calls && w.calls[s].phase.Inserting? && w.calls[s].phase.done == |w.calls[s].phase.chunks|
    requires |w.calls[s].phase.batch.vectors| == |w.calls[s].phase.chunks| && n >= 2
    ensures var p := w.calls[s].phase;
            StoresAll(env, w, Settle(env, w, s, n), s, w.calls[s].request, p.chunks, p.batch)
  {
    var w1 := NextStep(env, w, s);
    var w2 := NextStep(env, w1, s);
    assert Settle(env, w1, s, n - 1) == Settle(env, w2, s, n - 2) == w2;
  }

  lemma InsertOneAlone(env: Env, w: World, s: SessionId)
    requires Inv(env, w) && s in w.calls && w.calls[s].phase.Inserting?
    requires w.calls[s].phase.done < |w.calls[s].phase.chunks|
    requires !Stored(env, w.rows, w.calls[s].request) && OnlyOwnLocks(w, s)
    ensures Allowed(env, w, Advance(s)) && Inv(env, NextStep(env, w, s)) && OnlyOwnLocks(NextStep(env, w, s), s)
    ensures NextStep(env, w, s).calls[s] == w.calls[s].(phase := w.calls[s].phase.(done := w.calls[s].phase.done + 1))
    ensures NextStep(env, w, s).rows == w.rows && NextStep(env, w, s).audit == w.audit
  {
    var c := w.calls[s];
    assert CallOk(env, w.docs, w.rows, c);
    NextKeyIs(env, w.docs, w.rows, c);
    if HasKey(w.rows, NextKey(env, c)) {
      KeyMeansStored(w.rows, NextKey(env, c));
    }
    InsertKeeps(env, w, s);
  }

  lemma {:induction false} InsertAlone(env: Env, w: World, s: SessionId, n: nat)
    requires Inv(env, w) && s in w.calls && w.calls[s].phase.Inserting?
    requires !Stored(env, w.rows, w.calls[s].request) && OnlyOwnLocks(w, s)
    requires n >= |w.calls[s].phase.chunks| - w.calls[s].phase.done + 2
    ensures var p := w.calls[s].phase;
            |p.batch.vectors| == |p.chunks|
                  && StoresAll(env, w, Settle(env, w, s, n), s, w.calls[s].request, p.chunks, p.batch)
    decreases n
  {
    assert CallOk(env, w.docs, w.rows, w.calls[s]);
    if w.calls[s].phase.done == |w.calls[s].phase.chunks| {
      RecordAlone(env, w, s, n);
    } else {
      InsertOneAlone(env, w, s);
      InsertAlone(env, NextStep(env, w, s), s, n - 1);
    }
  }

  /**
   * With an answer in hand, nothing stored and no other session's lock in the way, a call stores the full set with the
   * provider's vectors and reports it as changed.
   */
  lemma AnsweredAloneStores(env: Env, w: World, s: SessionId, chunks: seq<TextChunk>, batch: Batch)
    requires Inv(env, w) && s in w.calls && w.calls[s].phase == Phase.Answered(chunks, batch)
    requires !Stored(env, w.rows, w.calls[s].request) && OnlyOwnLocks(w, s)
    ensures |batch.vectors| == |chunks|
    ensures StoresAll(env, w, Settle(env, w, s, |chunks| + 3), s, w.calls[s].request, chunks, batch)
    ensures NewRows(w, Settle(env, w, s, |chunks| + 3), w.calls[s].request, chunks, batch)
  {
    var r := w.calls[s].request;
    assert CallOk(env, w.docs, w.rows, w.calls[s]);
    DecideKeeps(env, w, s, chunks, batch.tokens, Inserting(chunks, batch, 0));
    assert SetOk(env, w.docs, w.rows, r.doc, r.config);
    StateIsNothingOrAll(env, w.docs, w.rows, r.doc, r.config, chunks);
    var w1 := NextStep(env, w, s);
    assert w1 == Put(w, s, Inserting(chunks, batch, 0));
    InsertAlone(env, w1, s, |chunks| + 2);
    StoredRowsAre(env, w, Settle(env, w, s, |chunks| + 3), s, r, chunks, batch);
  }

  lemma UnchangedEnds(env: Env, w: World, s: SessionId, chunks: seq<TextChunk>)
    requires Inv(env, w) && s in w.calls && w.calls[s].phase == Split(chunks) && Stored(env, w.rows, w.calls[s].request)
    ensures
      var r, w' := w.calls[s].request, Settle(env, w, s, 2);
      && s in w'.calls && w'.calls[s].phase == Finished(Success(|chunks|, false, 0)) && w'.rows == w.rows
      && w'.audit == w.audit + [Embedded(r.actor, r.doc, env.hash(r.config), |chunks|, false, 0)]
  {
    var r := w.calls[s].request;
    assert CallOk(env, w.docs, w.rows, w.calls[s]);
    assert SetOk(env, w.docs, w.rows, r.doc, r.config);
    StateIsNothingOrAll(env, w.docs, w.rows, r.doc, r.config, chunks);
    var w1 := NextStep(env, w, s);
    var w2 := NextStep(env, w1, s);
    assert w2.rows == w.rows + [] == w.rows;
    assert Settle(env, w, s, 2) == Settle(env, w1, s, 1) == Settle(env, w2, s, 0) == w2;
  }

  lemma MissingCalls(env: Env, w: World, s: SessionId, chunks: seq<TextChunk>)
    requires Inv(env, w) && s in w.calls && w.calls[s].phase == Split(chunks) && !Stored(env, w.rows, w.calls[s].request)
    ensures NextStep(env, w, s) == Put(w, s, Calling(chunks))
  {
    var r := w.calls[s].request;
    assert CallOk(env, w.docs, w.rows, w.calls[s]);
    assert SetOk(env, w.docs, w.rows, r.doc, r.config);
    StateIsNothingOrAll(env, w.docs, w.rows, r.doc, r.config, chunks);
  }

  /** Which error a document that cannot be split gives. */
  predicate Unsplittable(content: string, config: Config, e: ChunkingError) {
    match e
    case EmptyContent => content == ""
    case SizeOutOfRange => content != "" && !(1 <= config.size <= 2000)
    case OverlapOutOfRange => content != "" && 1 <= config.size <= 2000 && !(0 <= config.overlap < config.size)
  }

  lemma SplitFails(env: Env, content: string, config: Config, e: ChunkingError)
    ensures SplitDocument(env, content, config) == Err(e) <==> Unsplittable(content, config, e)
  {
  }

  /**
   * Undisturbed, embed_document refuses an unknown or unsplittable document, reports what is stored already as unchanged
   * without asking the provider, and asks the provider for exactly the document's chunks otherwise.
   */
  lemma StartsExactly(env: Env, w: World, s: SessionId)
    requires Inv(env, w) && s in w.calls && w.calls[s].phase == Begin
    ensures
      var r := w.calls[s].request;
      var w1, w2, w3 := Settle(env, w, s, 1), Settle(env, w, s, 2), Settle(env, w, s, 3);
      && s in w1.calls && s in w2.calls && s in w3.calls
      && (r.doc !in w.docs ==> w1.calls[s].phase == Finished(Failure(DocumentNotFound)) && w1.rows == w.rows)
      && (forall e | r.doc in w.docs && Unsplittable(w.docs[r.doc], r.config, e) ::
            w1.calls[s].phase == Finished(Failure(BadSplit(e))) && w1.rows == w.rows)
      && (r.doc in w.docs && SplitDocument(env, w.docs[r.doc], r.config).Ok? ==>
            var chunks := SplitDocument(env, w.docs[r.doc], r.config).value;
            if Stored(env, w.rows, r) then
              && w3.calls[s].phase == Finished(Success(|chunks|, false, 0)) && w3.rows == w.rows
              && w3.audit == w.audit + [Embedded(r.actor, r.doc, env.hash(r.config), |chunks|, false, 0)]
            else
              w2.calls[s].phase == Calling(chunks) && w2.rows == w.rows && w2.audit == w.audit)
  {
    var r := w.calls[s].request;
    var w1 := NextStep(env, w, s);
    assert Settle(env, w, s, 1) == Settle(env, w1, s, 0) == w1;
    if r.doc in w.docs {
      forall e ensures SplitDocument(env, w.docs[r.doc], r.config) == Err(e) <==> Unsplittable(w.docs[r.doc], r.config, e) {
        SplitFails(env, w.docs[r.doc], r.config, e);
      }
      if SplitDocument(env, w.docs[r.doc], r.config).Ok? {
        var chunks := SplitDocument(env, w.docs[r.doc], r.config).value;
        ApplyKeeps(env, w, Advance(s));
        assert w1 == Put(w, s, Split(chunks));
        if Stored(env, w.rows, r) {
          UnchangedEnds(env, w1, s, chunks);
        } else {
          MissingCalls(env, w1, s, chunks);
        }
        SettledNext(env, w, s);
      }
    }
  }

  lemma SettledNext(env: Env, w: World, s: SessionId)
    requires Live(w, s)
    ensures Settle(env, w, s, 2) == Settle(env, NextStep(env, w, s), s, 1)
    ensures Settle(env, w, s, 3) == Settle(env, NextStep(env, w, s), s, 2)
  {
  }
}
