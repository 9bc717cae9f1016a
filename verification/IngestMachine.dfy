/**
 * Ingesting documents in many sessions over one table with a unique key on source name and content hash.
 * Isolation is READ COMMITTED; an inserted row holds its key until its transaction or savepoint ends.
 */
module IngestMachine {
  import opened Wrappers
  import opened Normalization

  type SessionId = nat
  type DocId = nat
  type ActorId = nat

  datatype Key = Key(sourceName: string, contentHash: string)

  datatype Document = Document(id: DocId, title: string, sourceType: string, sourceName: string, content: string,
                               contentHash: string,
                               createdBy: ActorId)

  datatype Event = Ingested(actor: ActorId, doc: DocId, sourceType: string, contentHash: string, length: nat,
                            changed: bool)

  datatype Request = Request(actor: ActorId, title: string, sourceType: string, sourceName: string, content: string)

  datatype Outcome = Success(doc: Document, changed: bool) | InvalidContent | Unavailable

  datatype Phase =
    | Begin
    | Searching(content: string)
    | Creating(content: string)
    | Retrying(content: string)
    | Recorded(doc: Document, created: bool, event: Event)
    | Finished(outcome: Outcome)

  /** `newId` is the random identifier a new document would get. */
  datatype Call = Call(request: Request, newId: DocId, phase: Phase)

  datatype World = World(docs: seq<Document>, audit: seq<Event>, locks: map<Key, SessionId>, calls: map<SessionId,
                         Call>)

  /** The content hash. */
  type Hash = string -> string

  datatype Action =
    | Open(session: SessionId, request: Request, newId: DocId)
    | Advance(session: SessionId)
    | Fault(session: SessionId)
    | LoseAcknowledgement(session: SessionId)

  function KeyOf(d: Document): Key {
    Key(d.sourceName, d.contentHash)
  }

  function CallKey(hash: Hash, r: Request, content: string): Key {
    Key(r.sourceName, hash(content))
  }

  /** get_by_source_name_and_hash. */
  function Find(docs: seq<Document>, k: Key): Option<Document> {
    if docs == [] then None
    else if KeyOf(docs[|docs| - 1]) == k then Some(docs[|docs| - 1])
    else Find(docs[..|docs| - 1], k)
  }

  function NewDocument(hash: Hash, c: Call, content: string): Document {
    var r := c.request;
    Document(c.newId, r.title, r.sourceType, r.sourceName, content, hash(content), r.actor)
  }

  function EventOf(actor: ActorId, d: Document, changed: bool): Event {
    Ingested(actor, d.id, d.sourceType, d.contentHash, |d.content|, changed)
  }

  // ---------------------------------------------------------------- steps

  function Put(w: World, s: SessionId, phase: Phase): World
    requires s in w.calls
  {
    w.(calls := w.calls[s := w.calls[s].(phase := phase)])
  }

  function Release(w: World, s: SessionId, phase: Phase): World
    requires s in w.calls
  {
    Put(w, s, phase).(locks := map k | k in w.locks && w.locks[k] != s :: w.locks[k])
  }

  /** The lookup, and what follows when there is no such document. */
  function Search(hash: Hash, w: World, s: SessionId, content: string, missing: Phase): World
    requires s in w.calls
  {
    var r := w.calls[s].request;
    match Find(w.docs, CallKey(hash, r, content))
    case Some(d) => Put(w, s, Recorded(d, false, EventOf(r.actor, d, false)))
    case None => Put(w, s, missing)
  }

  /** The insert in its savepoint: it takes the key, or the savepoint is rolled back. */
  function Create(hash: Hash, w: World, s: SessionId, content: string): World
    requires s in w.calls
  {
    var c := w.calls[s];
    var k := CallKey(hash, c.request, content);
    if Find(w.docs, k).Some? then Put(w, s, Retrying(content))
    else
      var d := NewDocument(hash, c, content);
      Put(w, s, Recorded(d, true, EventOf(c.request.actor, d, true))).(locks := w.locks[k := s])
  }

  function Commit(w: World, s: SessionId, outcome: Outcome): World
    requires s in w.calls && w.calls[s].phase.Recorded?
  {
    var p := w.calls[s].phase;
    Release(w, s, Finished(outcome)).(
      docs := if p.created then w.docs + [p.doc] else w.docs,
      audit := w.audit + [p.event])
  }

  function NextStep(hash: Hash, w: World, s: SessionId): World
    requires s in w.calls
  {
    match w.calls[s].phase
    case Begin =>
      (match Normalize(w.calls[s].request.content)
       case None => Put(w, s, Finished(InvalidContent))
       case Some(content) => Put(w, s, Searching(content)))
    case Searching(content) => Search(hash, w, s, content, Creating(content))
    case Creating(content) => Create(hash, w, s, content)
    case Retrying(content) => Search(hash, w, s, content, Finished(Unavailable))
    case Recorded(doc, created, _) => Commit(w, s, Success(doc, created))
    case Finished(_) => w
  }

  // ---------------------------------------------------------------- scheduling

  predicate Live(w: World, s: SessionId) {
    s in w.calls && !w.calls[s].phase.Finished?
  }

  /** The insert waits while another session has inserted the same key. */
  predicate Blocked(hash: Hash, w: World, s: SessionId)
    requires s in w.calls
  {
    var c := w.calls[s];
    c.phase.Creating? && CallKey(hash, c.request, c.phase.content) in w.locks
    && w.locks[CallKey(hash, c.request, c.phase.content)] != s
  }

  predicate Allowed(hash: Hash, w: World, a: Action) {
    match a
    case Open(s, _, newId) => s !in w.calls && (forall d | d in w.docs :: d.id != newId)
          && forall t | t in w.calls :: w.calls[t].newId != newId
    case Advance(s) => Live(w, s) && !Blocked(hash, w, s)
    case Fault(s) => Live(w, s)
    case LoseAcknowledgement(s) => Live(w, s) && w.calls[s].phase.Recorded?
  }

  function Apply(hash: Hash, w: World, a: Action): World
    requires Allowed(hash, w, a)
  {
    match a
    case Open(s, r, newId) => w.(calls := w.calls[s := Call(r, newId, Begin)])
    case Advance(s) => NextStep(hash, w, s)
    case Fault(s) => Release(w, s, Finished(Unavailable))
    case LoseAcknowledgement(s) => Commit(w, s, Unavailable)
  }

  predicate Initial(w: World) {
    w.docs == [] && w.audit == [] && w.locks == map[] && w.calls == map[]
  }

  ghost predicate Step(hash: Hash, w: World, w': World) {
    exists a :: Allowed(hash, w, a) && w' == Apply(hash, w, a)
  }

  ghost predicate StepAt(hash: Hash, ws: seq<World>, i: nat)
    requires i + 1 < |ws|
  {
    Step(hash, ws[i], ws[i + 1])
  }

  /** A run: any interleaving of any number of ingest calls and database faults. */
  ghost predicate Run(hash: Hash, ws: seq<World>) {
    |ws| > 0 && Initial(ws[0]) && forall i: nat | i + 1 < |ws| :: StepAt(hash, ws, i)
  }
}
