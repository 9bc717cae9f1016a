/**
 * embed_document in many sessions over one chunk table with a unique key. Isolation is READ COMMITTED: a
 * statement sees what was committed when it started. Inserted rows hold their key until the transaction ends,
 * and another insert of the same key waits for that end.
 */
module EmbeddingMachine {
  import opened Wrappers
  import opened Chunking
  import opened Sorting
  import opened EmbeddingBatches

  type SessionId = nat
  type DocId = nat
  type ActorId = nat

  /** Everything the configuration hash covers. */
  datatype Config = Config(provider: string, strategy: string, size: int, overlap: int, model: string, dimensions: int)

  /** Content digest and configuration hash. */
  datatype Env = Env(digest: string -> string, hash: Config -> string)

  datatype Row = Row(doc: DocId, index: nat, content: string, contentHash: string, vector: Vector,
                     config: Config, configHash: string)

  datatype Key = Key(doc: DocId, index: nat, configHash: string)

  datatype Event = Embedded(actor: ActorId, doc: DocId, configHash: string, count: nat, changed: bool, tokens: nat)

  datatype Request = Request(actor: ActorId, doc: DocId, config: Config)

  datatype Error = DocumentNotFound | BadSplit(why: ChunkingError) | StateConflict | ProviderFailed | Unavailable

  datatype Outcome = Success(count: nat, changed: bool, tokens: nat) | Failure(error: Error)

  datatype Phase =
    | Begin
    | Split(chunks: seq<TextChunk>)
    | Calling(chunks: seq<TextChunk>)
    | Answered(chunks: seq<TextChunk>, batch: Batch)
    | Inserting(chunks: seq<TextChunk>, batch: Batch, done: nat)
    | Recorded(rows: seq<Row>, event: Event)
    | Collided(chunks: seq<TextChunk>, tokens: nat)
    | Finished(outcome: Outcome)

  datatype Call = Call(request: Request, phase: Phase)

  datatype World = World(docs: map<DocId, string>, rows: seq<Row>, audit: seq<Event>, locks: map<Key, SessionId>,
                         calls: map<SessionId, Call>)

  datatype Action =
    | Ingest(doc: DocId, content: string)
    | Open(session: SessionId, request: Request)
    | Advance(session: SessionId)
    | Reply(session: SessionId, batch: Option<Batch>)
    | Fault(session: SessionId)
    | LoseAcknowledgement(session: SessionId)

  // ---------------------------------------------------------------- queries

  function KeyOf(r: Row): Key {
    Key(r.doc, r.index, r.configHash)
  }

  predicate HasKey(rows: seq<Row>, k: Key) {
    exists r | r in rows :: KeyOf(r) == k
  }

  /** The rows of one document under one configuration hash, as the table holds them. */
  function RowsOf(rows: seq<Row>, doc: DocId, hash: string): seq<Row> {
    if rows == [] then []
    else RowsOf(rows[..|rows| - 1], doc, hash)
         + if rows[|rows| - 1].doc == doc && rows[|rows| - 1].configHash == hash then [rows[|rows| - 1]] else []
  }

  function ByIndex(r: Row): int {
    r.index
  }

  /** list_states_for_config, ordered by chunk index. */
  function States(rows: seq<Row>, doc: DocId, hash: string): seq<Row> {
    SortBy(ByIndex, RowsOf(rows, doc, hash))
  }

  datatype State = Missing | Complete | Inconsistent

  /** A stored row is the one expected for this chunk; its vector is not looked at. */
  predicate Matches(r: Row, chunk: TextChunk, config: Config, hash: string) {
    r.index == chunk.index && r.contentHash == chunk.contentHash && r.config == config && r.configHash == hash
  }

  /** _classify_existing. */
  function Classify(states: seq<Row>, chunks: seq<TextChunk>, config: Config, hash: string): State {
    if states == [] then Missing
    else if |states| != |chunks| then Inconsistent
    else if forall i | 0 <= i < |states| :: Matches(states[i], chunks[i], config, hash) then Complete
    else Inconsistent
  }

  function StateNow(env: Env, w: World, r: Request, chunks: seq<TextChunk>): State {
    Classify(States(w.rows, r.doc, env.hash(r.config)), chunks, r.config, env.hash(r.config))
  }

  /** _records: chunk and vector paired by position. */
  function Records(env: Env, r: Request, chunks: seq<TextChunk>, batch: Batch): seq<Row>
    requires |batch.vectors| == |chunks|
  {
    seq(|chunks|, i requires 0 <= i < |chunks| =>
      Row(r.doc, chunks[i].index, chunks[i].content, chunks[i].contentHash, batch.vectors[i], r.config,
            env.hash(r.config)))
  }

  // ---------------------------------------------------------------- steps

  function Put(w: World, s: SessionId, phase: Phase): World
    requires s in w.calls
  {
    w.(calls := w.calls[s := w.calls[s].(phase := phase)])
  }

  /** End of a transaction without effect: the locks of the session are freed. */
  function Rollback(w: World, s: SessionId, phase: Phase): World
    requires s in w.calls
  {
    Put(w, s, phase).(locks := map k | k in w.locks && w.locks[k] != s :: w.locks[k])
  }

  function Fail(w: World, s: SessionId, e: Error): World
    requires s in w.calls
  {
    Rollback(w, s, Finished(Failure(e)))
  }

  /** The audit event of a call that found the chunks complete, or stored them. */
  function EventOf(env: Env, r: Request, count: nat, changed: bool, tokens: nat): Event {
    Embedded(r.actor, r.doc, env.hash(r.config), count, changed, tokens)
  }

  function OutcomeOf(e: Event): Outcome {
    Success(e.count, e.changed, e.tokens)
  }

  function ReadDocument(env: Env, w: World, s: SessionId): World
    requires s in w.calls
  {
    var r := w.calls[s].request;
    if r.doc !in w.docs then Fail(w, s, DocumentNotFound)
    else match SplitDocument(env, w.docs[r.doc], r.config)
         case Err(e) => Fail(w, s, BadSplit(e))
         case Ok(chunks) => Put(w, s, Split(chunks))
  }

  function SplitDocument(env: Env, content: string, config: Config): Result<seq<TextChunk>, ChunkingError> {
    if content == "" then Err(EmptyContent)
    else if !(1 <= config.size <= MAX_CHUNK_SIZE) then Err(SizeOutOfRange)
    else if !(0 <= config.overlap < config.size) then Err(OverlapOutOfRange)
    else Ok(AllChunks(env.digest, content, config.size, config.overlap))
  }

  /** Complete chunks are audited as unchanged; what happens to missing ones is the caller's next phase. */
  function Decide(env: Env, w: World, s: SessionId, chunks: seq<TextChunk>, tokens: nat, missing: Phase): World
    requires s in w.calls
  {
    var r := w.calls[s].request;
    match StateNow(env, w, r, chunks)
    case Complete => Put(w, s, Recorded([], EventOf(env, r, |chunks|, false, tokens)))
    case Inconsistent => Fail(w, s, StateConflict)
    case Missing => Put(w, s, missing)
  }

  function NextKey(env: Env, c: Call): Key
    requires c.phase.Inserting? && c.phase.done < |c.phase.chunks|
  {
    Key(c.request.doc, c.phase.chunks[c.phase.done].index, env.hash(c.request.config))
  }

  /** The flush of create_many, row by row, and then the audit event. */
  function Insert(env: Env, w: World, s: SessionId): World
    requires s in w.calls && w.calls[s].phase.Inserting?
  {
    var r := w.calls[s].request;
    var p := w.calls[s].phase;
    if p.done < |p.chunks| then
      var k := NextKey(env, w.calls[s]);
      if HasKey(w.rows, k) then Rollback(w, s, Collided(p.chunks, p.batch.tokens))
      else Put(w, s, p.(done := p.done + 1)).(locks := w.locks[k := s])
    else if |p.batch.vectors| == |p.chunks| then
      Put(w, s, Recorded(Records(env, r, p.chunks, p.batch), EventOf(env, r, |p.chunks|, true, p.batch.tokens)))
    else Fail(w, s, ProviderFailed)  // zip(strict=True); validated answers always have one vector per chunk
  }

  function Commit(w: World, s: SessionId, outcome: Outcome): World
    requires s in w.calls && w.calls[s].phase.Recorded?
  {
    var p := w.calls[s].phase;
    Rollback(w, s, Finished(outcome)).(rows := w.rows + p.rows, audit := w.audit + [p.event])
  }

  function NextStep(env: Env, w: World, s: SessionId): World
    requires s in w.calls
  {
    match w.calls[s].phase
    case Begin => ReadDocument(env, w, s)
    case Split(chunks) => Decide(env, w, s, chunks, 0, Calling(chunks))
    case Answered(chunks, batch) => Decide(env, w, s, chunks, batch.tokens, Inserting(chunks, batch, 0))
    case Inserting(_, _, _) => Insert(env, w, s)
    case Recorded(_, event) => Commit(w, s, OutcomeOf(event))
    case Collided(chunks, tokens) => Decide(env, w, s, chunks, tokens, Finished(Failure(Unavailable)))
    case _ => w
  }

  // ---------------------------------------------------------------- scheduling

  predicate Live(w: World, s: SessionId) {
    s in w.calls && !w.calls[s].phase.Finished?
  }

  /** The next insert waits while another session has inserted the same key. */
  predicate Blocked(env: Env, w: World, s: SessionId)
    requires s in w.calls
  {
    var c := w.calls[s];
    c.phase.Inserting? && c.phase.done < |c.phase.chunks|
    && NextKey(env, c) in w.locks && w.locks[NextKey(env, c)] != s
  }

  predicate Allowed(env: Env, w: World, a: Action) {
    match a
    case Ingest(doc, _) => doc !in w.docs
    case Open(s, _) => s !in w.calls
    case Advance(s) => Live(w, s) && !w.calls[s].phase.Calling? && !Blocked(env, w, s)
    case Reply(s, batch) =>
      && Live(w, s) && w.calls[s].phase.Calling?
      && (batch.Some? ==> ValidBatch(batch.value, |w.calls[s].phase.chunks|, w.calls[s].request.config.dimensions))
    case Fault(s) => Live(w, s)
    case LoseAcknowledgement(s) => Live(w, s) && w.calls[s].phase.Recorded?
  }

  function Apply(env: Env, w: World, a: Action): World
    requires Allowed(env, w, a)
  {
    match a
    case Ingest(doc, content) => w.(docs := w.docs[doc := content])
    case Open(s, r) => w.(calls := w.calls[s := Call(r, Begin)])
    case Advance(s) => NextStep(env, w, s)
    case Reply(s, batch) =>
      if batch == None then Fail(w, s, ProviderFailed) else Put(w, s, Answered(w.calls[s].phase.chunks, batch.value))
    case Fault(s) => Fail(w, s, Unavailable)
    case LoseAcknowledgement(s) => Commit(w, s, Failure(Unavailable))
  }

  predicate Initial(w: World) {
    w.rows == [] && w.audit == [] && w.locks == map[] && w.calls == map[]
  }

  ghost predicate Step(env: Env, w: World, w': World) {
    exists a :: Allowed(env, w, a) && w' == Apply(env, w, a)
  }

  ghost predicate StepAt(env: Env, ws: seq<World>, i: nat)
    requires i + 1 < |ws|
  {
    Step(env, ws[i], ws[i + 1])
  }

  /** A run: any interleaving of any number of embedding calls, provider answers and database faults. */
  ghost predicate Run(env: Env, ws: seq<World>) {
    |ws| > 0 && Initial(ws[0]) && forall i: nat | i + 1 < |ws| :: StepAt(env, ws, i)
  }
}
