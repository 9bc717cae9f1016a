/** embed_document, statement by statement, among other sessions on the same tables. */
module EmbeddingService {
  import opened Wrappers
  import opened Chunking
  import opened Sorting
  import opened EmbeddingBatches
  import opened EmbeddingMachine
  import opened EmbeddingInvariant
  import opened EmbeddingTheorems
  import Runs

  ghost function Steps(env: Env): (World, World) -> bool {
    (w: World, w': World) => Step(env, w, w')
  }

  ghost predicate Reaches(env: Env, w: World, w': World) {
    Runs.Leads(Steps(env), w, w')
  }

  predicate Foreign(a: Action, s: SessionId) {
    a.Ingest? || a.session != s
  }

  predicate OnlyCall(w: World, w': World, t: SessionId) {
    t in w'.calls && w'.calls == w.calls[t := w'.calls[t]]
  }

  lemma DecideIsOwn(env: Env, w: World, t: SessionId, chunks: seq<TextChunk>, tokens: nat, missing: Phase)
    requires t in w.calls
    ensures OnlyCall(w, Decide(env, w, t, chunks, tokens, missing), t)
  {
  }

  lemma InsertIsOwn(env: Env, w: World, t: SessionId)
    requires t in w.calls && w.calls[t].phase.Inserting?
    ensures OnlyCall(w, Insert(env, w, t), t)
  {
  }

  lemma NextStepIsOwn(env: Env, w: World, t: SessionId)
    requires t in w.calls
    ensures OnlyCall(w, NextStep(env, w, t), t)
  {
    match w.calls[t].phase {
      case Begin => assert OnlyCall(w, EmbeddingMachine.ReadDocument(env, w, t), t);
      case Split(chunks) => DecideIsOwn(env, w, t, chunks, 0, Calling(chunks));
      case Answered(chunks, batch) => DecideIsOwn(env, w, t, chunks, batch.tokens, Inserting(chunks, batch, 0));
      case Inserting(_, _, _) => InsertIsOwn(env, w, t);
      case Collided(chunks, tokens) => DecideIsOwn(env, w, t, chunks, tokens, Finished(Failure(Unavailable)));
      case Recorded(_, event) => assert OnlyCall(w, Commit(w, t, OutcomeOf(event)), t);
      case _ => assert w.calls[t := w.calls[t]] == w.calls;
    }
  }

  lemma ForeignKeepsCall(env: Env, w: World, a: Action, s: SessionId)
    requires Allowed(env, w, a) && Foreign(a, s) && s in w.calls
    ensures s in Apply(env, w, a).calls && Apply(env, w, a).calls[s] == w.calls[s]
  {
    match a {
      case Advance(t) => NextStepIsOwn(env, w, t);
      case _ =>
    }
  }

  /** Documents, chunks, audit log, key locks and sessions. */
  class ChunkStore {
    const env: Env
    var docs: map<DocId, string>
    var rows: seq<Row>
    var audit: seq<Event>
    var locks: map<Key, SessionId>
    var calls: map<SessionId, Call>

    constructor (env: Env, docs: map<DocId, string>)
      ensures this.env == env && Initial(View()) && this.docs == docs
    {
      this.env, this.docs := env, docs;
      rows, audit, locks, calls := [], [], map[], map[];
    }

    function View(): World
      reads this
    {
      World(docs, rows, audit, locks, calls)
    }

    predicate At(s: SessionId, r: Request, phase: Phase)
      reads this
    {
      s in calls && calls[s] == Call(r, phase)
    }

    /** The state is good and was reached from `w`. */
    ghost predicate Since(w: World)
      reads this
    {
      Inv(env, View()) && Reaches(env, w, View())
    }

    ghost method Stepped(w: World, w1: World, a: Action)
      requires Inv(env, w1) && Reaches(env, w, w1) && Allowed(env, w1, a) && View() == Apply(env, w1, a)
      ensures Since(w)
    {
      assert Step(env, w1, View());
      Runs.LeadsFurther(Steps(env), w, w1, View());
      ApplyKeeps(env, w1, a);
    }

    method Open(s: SessionId, r: Request)
      requires Inv(env, View()) && s !in calls
      modifies this`calls
      ensures Since(old(View())) && At(s, r, Begin)
    {
      ghost var w := View();
      calls := calls[s := Call(r, Begin)];
      Runs.LeadsToItself(Steps(env), w);
      Stepped(w, w, Action.Open(s, r));
    }

    /** Any other sessions run any number of their own steps. */
    method Others(s: SessionId, ghost w: World)
      requires Since(w) && s in calls
      modifies this
      ensures Since(w) && s in calls && calls[s] == old(calls[s])
    {
      var todo: seq<Action> := *;
      for i := 0 to |todo|
        invariant Since(w) && s in calls && calls[s] == old(calls[s])
      {
        if Foreign(todo[i], s) && Allowed(env, View(), todo[i]) {
          ghost var w1 := View();
          ForeignKeepsCall(env, w1, todo[i], s);
          var w' := Apply(env, View(), todo[i]);
          docs, rows, audit, locks, calls := w'.docs, w'.rows, w'.audit, w'.locks, w'.calls;
          Stepped(w, w1, todo[i]);
        }
      }
    }

    method Move(s: SessionId, phase: Phase)
      requires s in calls
      modifies this`calls
      ensures View() == Put(old(View()), s, phase)
    {
      calls := calls[s := calls[s].(phase := phase)];
    }

    /** session.rollback(): what was flushed is gone and its keys are free. */
    method RollbackTo(s: SessionId, phase: Phase)
      requires s in calls
      modifies this`calls, this`locks
      ensures View() == Rollback(old(View()), s, phase)
    {
      calls := calls[s := calls[s].(phase := phase)];
      locks := map k | k in locks && locks[k] != s :: locks[k];
    }

    /** Before a statement of session `s`: others run, and the statement may fail with a database error. */
    method Interrupt(s: SessionId, ghost w: World) returns (failed: bool)
      requires Since(w) && Live(View(), s)
      modifies this
      ensures Since(w)
      ensures if failed then At(s, old(calls[s]).request, Finished(Failure(Unavailable)))
              else s in calls && calls[s] == old(calls[s])
    {
      Others(s, w);
      failed := *;
      if failed {
        ghost var w1 := View();
        RollbackTo(s, Finished(Failure(Unavailable)));
        Stepped(w, w1, Fault(s));
      }
    }

    /** session.commit(): it may fail before or after the server took the transaction. */
    method CommitWrites(s: SessionId, ghost r: Request, ghost w: World, ghost new_: seq<Row>, event: Event)
      returns (o: Outcome)
      requires Since(w) && At(s, r, Recorded(new_, event))
      modifies this
      ensures Since(w) && At(s, r, Finished(o))
      ensures o == OutcomeOf(event) || o == Failure(Unavailable)
      ensures o.Success? ==> audit != [] && audit[|audit| - 1] == event
      ensures o.Success? && event.changed ==> RowsOf(rows, r.doc, env.hash(r.config)) == new_
    {
      var failed := Interrupt(s, w);
      if failed {
        return Failure(Unavailable);
      }
      ghost var w1 := View();
      var acknowledged: bool := *;
      o := if acknowledged then OutcomeOf(event) else Failure(Unavailable);
      rows, audit := rows + calls[s].phase.rows, audit + [event];
      RollbackTo(s, Finished(o));
      Stepped(w, w1, if acknowledged then Advance(s) else LoseAcknowledgement(s));
      if event.changed {
        CommitStores(env, w1, s);
      }
    }
  }

  /** What a commit of new rows leaves stored is exactly those rows. */
  lemma CommitStores(env: Env, w: World, s: SessionId)
    requires Inv(env, w) && s in w.calls && w.calls[s].phase.Recorded? && w.calls[s].phase.event.changed
    ensures var r := w.calls[s].request;
            RowsOf(w.rows + w.calls[s].phase.rows, r.doc, env.hash(r.config)) == w.calls[s].phase.rows
  {
    var r := w.calls[s].request;
    assert CallOk(env, w.docs, w.rows, w.calls[s]);
    CommitIsFirst(env, w, s);
    RowsOfAppend(w.rows, w.calls[s].phase.rows, r.doc, env.hash(r.config));
    RowsOfUniform(w.calls[s].phase.rows, r.doc, env.hash(r.config), r.doc, env.hash(r.config));
  }

  class EmbeddingService {
    const store: ChunkStore
    const config: Config
    const batchSize: nat

    constructor (store: ChunkStore, config: Config, batchSize: nat)
      ensures this.store == store && this.config == config && this.batchSize == batchSize
    {
      this.store, this.config, this.batchSize := store, config, batchSize;
    }

    /** The loop of _classify_existing. */
    method ClassifyExisting(states: seq<Row>, chunks: seq<TextChunk>, hash: string) returns (state: State)
      ensures state == Classify(states, chunks, config, hash)
    {
      if states == [] {
        return Missing;
      }
      if |states| != |chunks| {
        return Inconsistent;
      }
      for i := 0 to |states|
        invariant forall j | 0 <= j < i :: Matches(states[j], chunks[j], config, hash)
      {
        if states[i].index != chunks[i].index || states[i].contentHash != chunks[i].contentHash {
          return Inconsistent;
        }
        if states[i].config != config || states[i].configHash != hash {
          return Inconsistent;
        }
      }
      state := Complete;
    }

    method ReadDocument(s: SessionId, ghost r: Request, ghost w: World, doc: DocId)
      returns (chunks: Result<seq<TextChunk>, Error>)
      requires store.Since(w) && store.At(s, r, Begin) && r.doc == doc && r.config == config
      modifies store
      ensures store.Since(w)
      ensures store.At(s, r, if chunks.Ok? then Split(chunks.value) else Finished(Failure(chunks.error)))
    {
      var failed := store.Interrupt(s, w);
      if failed {
        return Err(Unavailable);
      }
      ghost var w1 := store.View();
      if doc !in store.docs {
        store.RollbackTo(s, Finished(Failure(DocumentNotFound)));
        chunks := Err(DocumentNotFound);
      } else {
        var split := SplitIntoChunks(store.env.digest, store.docs[doc], config.size, config.overlap);
        if split.Ok? {
          SplitIsUnique(store.env.digest, store.docs[doc], config.size, config.overlap, split.value);
          store.Move(s, Split(split.value));
          chunks := Ok(split.value);
        } else {
          store.RollbackTo(s, Finished(Failure(BadSplit(split.error))));
          chunks := Err(BadSplit(split.error));
        }
      }
      store.Stepped(w, w1, Advance(s));
    }

    /** Reads the stored states and moves on: unchanged and audited, in conflict, or to the phase for missing chunks. */
    method Reconcile(s: SessionId, ghost r: Request, ghost w: World, ghost now: Phase, actor: ActorId, doc: DocId,
                     chunks: seq<TextChunk>, tokens: nat, missing: Phase)
      returns (o: Option<Outcome>)
      requires store.Since(w) && store.At(s, r, now) && r == Request(actor, doc, config)
      requires || (now == Split(chunks) && tokens == 0 && missing == Calling(chunks))
               || (now.Answered? && now == Phase.Answered(chunks, now.batch) && now.batch.tokens == tokens
                   && missing == Inserting(chunks, now.batch, 0))
               || (now == Collided(chunks, tokens) && missing == Finished(Failure(Unavailable)))
      modifies store
      ensures store.Since(w)
      ensures store.At(s, r, if o == None then missing else Finished(o.value))
      ensures o.Some? && o.value.Success? ==>
                !o.value.changed && store.audit != []
                && store.audit[|store.audit| - 1] == EventOf(store.env, r, o.value.count, false, tokens)
                && o.value.tokens == tokens
    {
      var failed := store.Interrupt(s, w);
      if failed {
        return Some(Failure(Unavailable));
      }
      ghost var w1 := store.View();
      var hash := store.env.hash(config);
      var state := ClassifyExisting(States(store.rows, doc, hash), chunks, hash);
      match state {
        case Complete =>
          var event := EventOf(store.env, Request(actor, doc, config), |chunks|, false, tokens);
          store.Move(s, Recorded([], event));
          store.Stepped(w, w1, Advance(s));
          var committed := store.CommitWrites(s, r, w, [], event);
          o := Some(committed);
        case Inconsistent =>
          store.RollbackTo(s, Finished(Failure(StateConflict)));
          store.Stepped(w, w1, Advance(s));
          o := Some(Failure(StateConflict));
        case Missing =>
          store.Move(s, missing);
          store.Stepped(w, w1, Advance(s));
          o := None;
      }
    }

    /** The provider calls, outside any transaction. */
    method CallProvider(s: SessionId, ghost r: Request, ghost w: World, provider: Provider, chunks: seq<TextChunk>)
      returns (batch: Result<Batch, Error>)
      requires store.Since(w) && store.At(s, r, Calling(chunks)) && r.config == config && batchSize > 0
      modifies store
      ensures store.Since(w)
      ensures store.At(s, r, if batch.Ok? then Phase.Answered(chunks, batch.value) else Finished(Failure(batch.error)))
      ensures batch.Ok? ==> Obtained(provider, chunks, batch.value)
    {
      var embedded, calls := EmbedChunks(provider, chunks, batchSize, config.dimensions);
      store.Others(s, w);
      ghost var w1 := store.View();
      if embedded.Err? {
        store.RollbackTo(s, Finished(Failure(ProviderFailed)));
        store.Stepped(w, w1, Reply(s, None));
        return Err(ProviderFailed);
      }
      GatheredShape(provider, chunks, batchSize, config.dimensions, |calls|);
      OffsetInside(|chunks|, batchSize, |calls|);
      store.Move(s, Phase.Answered(chunks, embedded.value));
      store.Stepped(w, w1, Reply(s, Some(embedded.value)));
      batch := Ok(embedded.value);
    }

    /** `batch` is what the provider answered to the batches of `chunks`, put together. */
    predicate Obtained(provider: Provider, chunks: seq<TextChunk>, batch: Batch) {
      && batchSize > 0
      && EmbeddingBatches.AllAnswered(provider, chunks, batchSize, config.dimensions, BatchCount(|chunks|, batchSize))
      && batch == Gathered(provider, chunks, batchSize, config.dimensions, BatchCount(|chunks|, batchSize))
    }

    /** Waits for the key of the next row, until it is free or this session's own, or an error ends the wait. */
    method AwaitKey(s: SessionId, ghost r: Request, ghost w: World, chunks: seq<TextChunk>, batch: Batch, i: nat, k: Key)
      returns (free: bool)
      requires store.Since(w) && store.At(s, r, Inserting(chunks, batch, i))
      modifies store
      ensures store.Since(w)
      ensures if free then store.At(s, r, Inserting(chunks, batch, i)) && (k in store.locks ==> store.locks[k] == s)
              else store.At(s, r, Finished(Failure(Unavailable)))
    {
      var failed := store.Interrupt(s, w);
      var patience: nat := *;
      while !failed && k in store.locks && store.locks[k] != s && patience > 0
        invariant store.Since(w)
        invariant store.At(s, r, if failed then Finished(Failure(Unavailable)) else Inserting(chunks, batch, i))
        decreases patience
      {
        failed := store.Interrupt(s, w);
        patience := patience - 1;
      }
      if !failed && k in store.locks && store.locks[k] != s {
        ghost var w1 := store.View();
        store.RollbackTo(s, Finished(Failure(Unavailable)));
        store.Stepped(w, w1, Fault(s));
        failed := true;
      }
      free := !failed;
    }

    /** One insert: it waits for its key, and takes it or finds it taken. */
    method InsertRow(s: SessionId, ghost r: Request, ghost w: World, chunks: seq<TextChunk>, batch: Batch, i: nat)
      returns (inserted: Option<bool>)
      requires store.Since(w) && store.At(s, r, Inserting(chunks, batch, i)) && i < |chunks| && r.config == config
      modifies store
      ensures store.Since(w)
      ensures match inserted
              case None => store.At(s, r, Finished(Failure(Unavailable)))
              case Some(true) => store.At(s, r, Inserting(chunks, batch, i + 1))
              case Some(false) => store.At(s, r, Collided(chunks, batch.tokens))
    {
      var k := Key(store.calls[s].request.doc, chunks[i].index, store.env.hash(config));
      var free := AwaitKey(s, r, w, chunks, batch, i, k);
      if !free {
        return None;
      }
      ghost var w1 := store.View();
      if HasKey(store.rows, k) {
        store.RollbackTo(s, Collided(chunks, batch.tokens));
        inserted := Some(false);
      } else {
        store.Move(s, Inserting(chunks, batch, i + 1));
        store.locks := store.locks[k := s];
        inserted := Some(true);
      }
      store.Stepped(w, w1, Advance(s));
    }

    /** create_many and the event of the change; None when the rows are all flushed. */
    method StoreChunks(s: SessionId, ghost r: Request, ghost w: World, actor: ActorId, doc: DocId,
                       chunks: seq<TextChunk>, batch: Batch)
      returns (flushed: Option<bool>)
      requires store.Since(w) && store.At(s, r, Inserting(chunks, batch, 0)) && r == Request(actor, doc, config)
      modifies store
      ensures store.Since(w) && |batch.vectors| == |chunks|
      ensures match flushed
              case None => store.At(s, r, Finished(Failure(Unavailable)))
              case Some(false) => store.At(s, r, Collided(chunks, batch.tokens))
              case Some(true) =>
                store.At(s, r, Recorded(Records(store.env, r, chunks, batch),
                                        EventOf(store.env, r, |chunks|, true, batch.tokens)))
    {
      assert CallOk(store.env, store.docs, store.rows, store.calls[s]);
      var done := 0;
      while done < |chunks|
        invariant done <= |chunks|
        invariant store.Since(w) && store.At(s, r, Inserting(chunks, batch, done))
      {
        var inserted := InsertRow(s, r, w, chunks, batch, done);
        if inserted != Some(true) {
          return inserted;
        }
        done := done + 1;
      }
      store.Others(s, w);
      ghost var w1 := store.View();
      store.Move(s, Recorded(Records(store.env, Request(actor, doc, config), chunks, batch),
                             EventOf(store.env, Request(actor, doc, config), |chunks|, true, batch.tokens)));
      store.Stepped(w, w1, Advance(s));
      flushed := Some(true);
    }

    /**
     * embed_document: on success the full set of chunks is stored and counted, the call's own event is the last
     * one committed, and if it says `changed` every stored vector is the one the provider gave for that chunk.
     */
    method EmbedDocument(s: SessionId, actor: ActorId, doc: DocId, provider: Provider) returns (o: Outcome)
      requires Inv(store.env, store.View()) && s !in store.calls && batchSize > 0
      modifies store
      ensures store.Since(old(store.View())) && store.At(s, Request(actor, doc, config), Finished(o))
      ensures o.Success? ==> Whole(doc, o.count)
      ensures o.Success? ==>
                && store.audit != []
                && store.audit[|store.audit| - 1]
                   == Embedded(actor, doc, store.env.hash(config), o.count, o.changed, o.tokens)
      ensures o.Success? && o.changed ==> StoredFrom(provider, doc)
      ensures o != Failure(StateConflict)
    {
      ghost var w := store.View();
      store.Open(s, Request(actor, doc, config));
      o := Run(s, w, actor, doc, provider);
      EndsWhole(s, Request(actor, doc, config), o);
    }

    method Run(s: SessionId, ghost w: World, actor: ActorId, doc: DocId, provider: Provider) returns (o: Outcome)
      requires store.Since(w) && store.At(s, Request(actor, doc, config), Begin) && batchSize > 0
      modifies store
      ensures store.Since(w) && store.At(s, Request(actor, doc, config), Finished(o))
      ensures o.Success? ==>
                && store.audit != []
                && store.audit[|store.audit| - 1]
                   == Embedded(actor, doc, store.env.hash(config), o.count, o.changed, o.tokens)
      ensures o.Success? && o.changed ==> StoredFrom(provider, doc)
    {
      ghost var r := Request(actor, doc, config);
      var chunks := ReadDocument(s, r, w, doc);
      if chunks.Err? {
        return Failure(chunks.error);
      }
      var early := Reconcile(s, r, w, Split(chunks.value), actor, doc, chunks.value, 0, Calling(chunks.value));
      if early.Some? {
        return early.value;
      }
      var batch := CallProvider(s, r, w, provider, chunks.value);
      if batch.Err? {
        return Failure(batch.error);
      }
      early := Reconcile(s, r, w, Phase.Answered(chunks.value, batch.value), actor, doc, chunks.value,
                         batch.value.tokens, Inserting(chunks.value, batch.value, 0));
      if early.Some? {
        return early.value;
      }
      o := Persist(s, w, actor, doc, provider, chunks.value, batch.value);
    }

    /** The inserts and the commit, or the reconciliation after losing the race. */
    method Persist(s: SessionId, ghost w: World, actor: ActorId, doc: DocId, provider: Provider,
                   chunks: seq<TextChunk>, batch: Batch)
      returns (o: Outcome)
      requires store.Since(w) && store.At(s, Request(actor, doc, config), Inserting(chunks, batch, 0))
      requires Obtained(provider, chunks, batch)
      modifies store
      ensures store.Since(w) && store.At(s, Request(actor, doc, config), Finished(o))
      ensures o.Success? ==>
                && store.audit != []
                && store.audit[|store.audit| - 1]
                   == Embedded(actor, doc, store.env.hash(config), o.count, o.changed, o.tokens)
      ensures o.Success? && o.changed ==> StoredFrom(provider, doc)
    {
      ghost var r := Request(actor, doc, config);
      var flushed := StoreChunks(s, r, w, actor, doc, chunks, batch);
      match flushed {
        case None => o := Failure(Unavailable);
        case Some(true) =>
          var event := EventOf(store.env, Request(actor, doc, config), |chunks|, true, batch.tokens);
          forall i: nat | i < |chunks| ensures VectorAnswered(provider, Records(store.env, r, chunks, batch), i) {
            RecordsAnswered(provider, r, chunks, batch, i);
          }
          o := store.CommitWrites(s, r, w, Records(store.env, r, chunks, batch), event);
        case Some(false) =>
          var resolved := Reconcile(s, r, w, Collided(chunks, batch.tokens), actor, doc, chunks, batch.tokens,
                                    Finished(Failure(Unavailable)));
          o := if resolved == None then Failure(Unavailable) else resolved.value;
      }
    }

    /** The whole set is stored under this service's configuration, `count` rows of it. */
    predicate Whole(doc: DocId, count: nat)
      reads store
    {
      var stored := RowsOf(store.rows, doc, store.env.hash(config));
      && doc in store.docs && |stored| == count && FullSet(store.env, store.docs[doc], doc, config, stored)
      && 0 <= config.overlap < config.size
      && forall i: nat | i < |stored| :: StoredPiece(store.docs[doc], doc, stored[i], i)
    }

    /** Row i holds the piece of the content at its place, with its digest and under this configuration. */
    predicate StoredPiece(content: string, doc: DocId, row: Row, i: nat)
      requires 0 <= config.overlap < config.size
    {
      var start := i * (config.size - config.overlap);
      && row.doc == doc && row.index == i && row.config == config && row.configHash == store.env.hash(config)
      && start < |content| && row.content == content[start..Min(start + config.size, |content|)]
      && row.contentHash == store.env.digest(row.content) && |row.vector| == config.dimensions
    }

    /** The texts of the k-th provider call, as the stored rows have them. */
    predicate CalledWith(stored: seq<Row>, k: nat, texts: seq<string>) {
      && k * batchSize <= |stored| && |texts| == Min(batchSize, |stored| - k * batchSize)
      && forall m | 0 <= m < |texts| :: texts[m] == stored[k * batchSize + m].content
    }

    /** The vector stored for chunk i is the j-th of the provider's answer to the call that chunk travelled in. */
    ghost predicate VectorAnswered(provider: Provider, stored: seq<Row>, i: nat)
      requires i < |stored| && batchSize > 0
    {
      var k, j := i / batchSize, i % batchSize;
      exists texts ::
        && CalledWith(stored, k, texts) && provider(k, texts).Ok?
        && j < |provider(k, texts).value.vectors| && provider(k, texts).value.vectors[j] == stored[i].vector
    }

    /** Every stored vector is the one the provider gave for the stored text. */
    ghost predicate StoredFrom(provider: Provider, doc: DocId)
      requires batchSize > 0
      reads store
    {
      var stored := RowsOf(store.rows, doc, store.env.hash(config));
      forall i: nat | i < |stored| :: VectorAnswered(provider, stored, i)
    }

    /** Chunks paired with the provider's vectors for them. */
    lemma RecordsAnswered(provider: Provider, r: Request, chunks: seq<TextChunk>, batch: Batch, i: nat)
      requires Obtained(provider, chunks, batch) && |batch.vectors| == |chunks| && i < |chunks|
      ensures VectorAnswered(provider, Records(store.env, r, chunks, batch), i)
    {
      EveryChunkGetsItsVector(provider, chunks, batchSize, config.dimensions, i);
      var k, j := i / batchSize, i % batchSize;
      var stored := Records(store.env, r, chunks, batch);
      var texts :| SentTexts(chunks, batchSize, k, texts) && provider(k, texts).Ok?
            && j < |provider(k, texts).value.vectors| && provider(k, texts).value.vectors[j] == batch.vectors[i];
      assert CalledWith(stored, k, texts);
      assert stored[i].vector == batch.vectors[i];
    }

    lemma EndsWhole(s: SessionId, r: Request, o: Outcome)
      requires Inv(store.env, store.View()) && store.At(s, r, Finished(o)) && r.config == config
      ensures o.Success? ==> Whole(r.doc, o.count)
      ensures o != Failure(StateConflict)
    {
      assert CallOk(store.env, store.docs, store.rows, store.calls[s]);
      if o.Success? {
        assert SetOk(store.env, store.docs, store.rows, r.doc, config);
      }
    }
  }
}
