/** What every step of concurrent ingestion keeps, and what follows for every reachable state. */
module IngestTheorems {
  import opened Wrappers
  import opened Text
  import opened Normalization
  import opened IngestMachine

  // ---------------------------------------------------------------- the invariant

  predicate UniqueKeys(docs: seq<Document>) {
    forall i, j | 0 <= i < j < |docs| :: KeyOf(docs[i]) != KeyOf(docs[j])
  }

  predicate UniqueIds(docs: seq<Document>) {
    forall i, j | 0 <= i < j < |docs| :: docs[i].id != docs[j].id
  }

  predicate Hashed(hash: Hash, docs: seq<Document>) {
    forall i | 0 <= i < |docs| :: docs[i].contentHash == hash(docs[i].content)
  }

  function ChangedEvents(audit: seq<Event>, id: DocId): nat {
    if audit == [] then 0
    else ChangedEvents(audit[..|audit| - 1], id)
         + if audit[|audit| - 1].doc == id && audit[|audit| - 1].changed then 1 else 0
  }

  predicate Exists(docs: seq<Document>, id: DocId) {
    exists i | 0 <= i < |docs| :: docs[i].id == id
  }

  ghost predicate EventsOk(docs: seq<Document>, audit: seq<Event>) {
    forall id :: ChangedEvents(audit, id) == if Exists(docs, id) then 1 else 0
  }

  predicate Holds(c: Call, k: Key) {
    c.phase.Recorded? && c.phase.created && KeyOf(c.phase.doc) == k
  }

  ghost predicate LocksOk(w: World) {
    && (forall s | s in w.calls && w.calls[s].phase.Recorded? && w.calls[s].phase.created ::
          KeyOf(w.calls[s].phase.doc) in w.locks && w.locks[KeyOf(w.calls[s].phase.doc)] == s)
    && (forall k | k in w.locks :: w.locks[k] in w.calls && Holds(w.calls[w.locks[k]], k) && Find(w.docs, k) == None)
  }

  /** The document a call reports is the committed one under the call's own key. */
  predicate FoundFor(hash: Hash, docs: seq<Document>, r: Request, d: Document) {
    Normalize(r.content).Some? && Find(docs, CallKey(hash, r, Normalize(r.content).value)) == Some(d)
  }

  predicate CallOk(hash: Hash, docs: seq<Document>, c: Call) {
    && (!c.phase.Finished? ==> !Exists(docs, c.newId))
    && match c.phase
       case Begin => true
       case Searching(content) => Normalize(c.request.content) == Some(content)
       case Creating(content) => Normalize(c.request.content) == Some(content)
       case Retrying(content) =>
         Normalize(c.request.content) == Some(content) && Find(docs, CallKey(hash, c.request, content)).Some?
       case Recorded(d, created, event) =>
         && event == EventOf(c.request.actor, d, created)
         && (if created
             then Normalize(c.request.content).Some? && d == NewDocument(hash, c, Normalize(c.request.content).value)
             else FoundFor(hash, docs, c.request, d))
       case Finished(Success(d, _)) => FoundFor(hash, docs, c.request, d)
       case Finished(_) => true
  }

  ghost predicate CallsOk(hash: Hash, w: World) {
    && (forall s | s in w.calls :: CallOk(hash, w.docs, w.calls[s]))
    && (forall s, t | s in w.calls && t in w.calls && w.calls[s].newId == w.calls[t].newId :: s == t)
  }

  ghost predicate Inv(hash: Hash, w: World) {
    && UniqueKeys(w.docs) && UniqueIds(w.docs) && Hashed(hash, w.docs)
    && EventsOk(w.docs, w.audit) && LocksOk(w) && CallsOk(hash, w)
  }

  lemma InitialInv(hash: Hash, w: World)
    requires Initial(w)
    ensures Inv(hash, w)
  {
  }

  // ---------------------------------------------------------------- the table

  lemma {:induction false} FindMeans(docs: seq<Document>, k: Key)
    ensures Find(docs, k).Some? ==> Find(docs, k).value in docs && KeyOf(Find(docs, k).value) == k
    ensures forall d | d in docs && KeyOf(d) == k :: Find(docs, k).Some?
  {
    if docs != [] {
      FindMeans(docs[..|docs| - 1], k);
      assert docs == docs[..|docs| - 1] + [docs[|docs| - 1]];
    }
  }

  lemma FindGrows(docs: seq<Document>, d: Document, k: Key)
    requires Find(docs, KeyOf(d)) == None
    ensures Find(docs + [d], k) == if k == KeyOf(d) then Some(d) else Find(docs, k)
  {
    assert (docs + [d])[..|docs|] == docs;
  }

  lemma ExistsGrows(docs: seq<Document>, d: Document, id: DocId)
    ensures Exists(docs + [d], id) <==> Exists(docs, id) || id == d.id
  {
    if Exists(docs, id) {
      var i :| 0 <= i < |docs| && docs[i].id == id;
      assert (docs + [d])[i].id == id;
    }
    assert (docs + [d])[|docs|] == d;
  }

  lemma TableGrows(hash: Hash, docs: seq<Document>, d: Document)
    requires UniqueKeys(docs) && UniqueIds(docs) && Hashed(hash, docs)
    requires Find(docs, KeyOf(d)) == None && !Exists(docs, d.id) && d.contentHash == hash(d.content)
    ensures UniqueKeys(docs + [d]) && UniqueIds(docs + [d]) && Hashed(hash, docs + [d])
  {
    FindMeans(docs, KeyOf(d));
    forall i | 0 <= i < |docs| ensures KeyOf(docs[i]) != KeyOf(d) && docs[i].id != d.id {
      assert docs[i] in docs;
    }
  }

  lemma EventsGrow(docs: seq<Document>, audit: seq<Event>, d: Document, event: Event, created: bool)
    requires EventsOk(docs, audit) && event.doc == d.id && event.changed == created
    requires created ==> !Exists(docs, d.id)
    ensures EventsOk(if created then docs + [d] else docs, audit + [event])
  {
    var docs' := if created then docs + [d] else docs;
    forall id ensures ChangedEvents(audit + [event], id) == if Exists(docs', id) then 1 else 0 {
      assert (audit + [event])[..|audit|] == audit;
      ExistsGrows(docs, d, id);
    }
  }

  // ---------------------------------------------------------------- steps

  /** Session s moves on without touching tables or locks, holding nothing before or after. */
  lemma MoveKeeps(hash: Hash, w: World, s: SessionId, phase: Phase)
    requires Inv(hash, w) && s in w.calls && CallOk(hash, w.docs, w.calls[s].(phase := phase))
    requires !(w.calls[s].phase.Recorded? && w.calls[s].phase.created) && !(phase.Recorded? && phase.created)
    ensures Inv(hash, Put(w, s, phase))
  {
  }

  lemma ReleaseKeeps(hash: Hash, w: World, s: SessionId)
    requires Inv(hash, w) && s in w.calls
    ensures Inv(hash, Release(w, s, Finished(Unavailable)))
  {
    var w' := Release(w, s, Finished(Unavailable));
    forall k | k in w'.locks ensures w'.locks[k] in w'.calls && Holds(w'.calls[w'.locks[k]], k) {
      assert k in w.locks;
    }
  }

  lemma SearchKeeps(hash: Hash, w: World, s: SessionId, content: string, missing: Phase)
    requires Inv(hash, w) && s in w.calls && Normalize(w.calls[s].request.content) == Some(content)
    requires !w.calls[s].phase.Recorded? && !w.calls[s].phase.Finished?
    requires (w.calls[s].phase.Searching? && missing == Creating(content))
             || (w.calls[s].phase.Retrying? && w.calls[s].phase.content == content && missing == Finished(Unavailable))
    ensures Inv(hash, Search(hash, w, s, content, missing))
  {
    var c := w.calls[s];
    var found := Find(w.docs, CallKey(hash, c.request, content));
    assert CallOk(hash, w.docs, c);
    if found.Some? {
      MoveKeeps(hash, w, s, Recorded(found.value, false, EventOf(c.request.actor, found.value, false)));
    } else {
      MoveKeeps(hash, w, s, missing);
    }
  }

  lemma CreateKeeps(hash: Hash, w: World, s: SessionId, content: string)
    requires Inv(hash, w) && s in w.calls && w.calls[s].phase == Creating(content) && !Blocked(hash, w, s)
    ensures Inv(hash, Create(hash, w, s, content))
  {
    var c := w.calls[s];
    var k := CallKey(hash, c.request, content);
    assert CallOk(hash, w.docs, c);
    if Find(w.docs, k).Some? {
      MoveKeeps(hash, w, s, Retrying(content));
    } else {
      CreateLocks(hash, w, s, content);
    }
  }

  lemma CreateLocks(hash: Hash, w: World, s: SessionId, content: string)
    requires Inv(hash, w) && s in w.calls && w.calls[s].phase == Creating(content) && !Blocked(hash, w, s)
    requires Find(w.docs, CallKey(hash, w.calls[s].request, content)) == None
    ensures Inv(hash, Create(hash, w, s, content))
  {
    var w' := Create(hash, w, s, content);
    var k := CallKey(hash, w.calls[s].request, content);
    assert CallOk(hash, w.docs, w.calls[s]);
    assert KeyOf(w'.calls[s].phase.doc) == k;
    forall k' | k' in w'.locks
      ensures w'.locks[k'] in w'.calls && Holds(w'.calls[w'.locks[k']], k') && Find(w'.docs, k') == None {
      if k' != k {
        assert k' in w.locks;
      }
    }
  }

  lemma CallOkGrows(hash: Hash, docs: seq<Document>, d: Document, c: Call)
    requires CallOk(hash, docs, c) && Find(docs, KeyOf(d)) == None && (c.newId != d.id || c.phase.Finished?)
    ensures CallOk(hash, docs + [d], c)
  {
    ExistsGrows(docs, d, c.newId);
    if Normalize(c.request.content).Some? {
      FindGrows(docs, d, CallKey(hash, c.request, Normalize(c.request.content).value));
    }
  }

  lemma CommitKeepsLocks(w: World, s: SessionId, outcome: Outcome)
    requires LocksOk(w) && s in w.calls && w.calls[s].phase.Recorded?
    requires w.calls[s].phase.created ==> Find(w.docs, KeyOf(w.calls[s].phase.doc)) == None
    ensures LocksOk(Commit(w, s, outcome))
  {
    var w' := Commit(w, s, outcome);
    forall k | k in w'.locks
      ensures w'.locks[k] in w'.calls && Holds(w'.calls[w'.locks[k]], k) && Find(w'.docs, k) == None {
      assert k in w.locks;
      if w.calls[s].phase.created {
        FindGrows(w.docs, w.calls[s].phase.doc, k);
      }
    }
  }

  lemma CommitKeeps(hash: Hash, w: World, s: SessionId, outcome: Outcome)
    requires Inv(hash, w) && s in w.calls && w.calls[s].phase.Recorded?
    requires outcome == Success(w.calls[s].phase.doc, w.calls[s].phase.created) || outcome == Unavailable
    ensures Inv(hash, Commit(w, s, outcome))
  {
    var c := w.calls[s];
    var p := c.phase;
    var w' := Commit(w, s, outcome);
    assert CallOk(hash, w.docs, c);
    if p.created {
      assert KeyOf(p.doc) in w.locks && Find(w.docs, KeyOf(p.doc)) == None;
      TableGrows(hash, w.docs, p.doc);
      FindGrows(w.docs, p.doc, KeyOf(p.doc));
    }
    EventsGrow(w.docs, w.audit, p.doc, p.event, p.created);
    CommitKeepsLocks(w, s, outcome);
    forall t | t in w'.calls ensures CallOk(hash, w'.docs, w'.calls[t]) {
      if t != s {
        assert CallOk(hash, w.docs, w.calls[t]) && w.calls[t].newId != c.newId;
        if p.created {
          CallOkGrows(hash, w.docs, p.doc, w.calls[t]);
        }
      }
    }
  }

  lemma OpenKeeps(hash: Hash, w: World, s: SessionId, r: Request, newId: DocId)
    requires Inv(hash, w) && Allowed(hash, w, Open(s, r, newId))
    ensures Inv(hash, Apply(hash, w, Open(s, r, newId)))
  {
    assert !Exists(w.docs, newId) by {
      forall i | 0 <= i < |w.docs| ensures w.docs[i].id != newId {
        assert w.docs[i] in w.docs;
      }
    }
  }

  lemma AdvanceKeeps(hash: Hash, w: World, s: SessionId)
    requires Inv(hash, w) && Allowed(hash, w, Advance(s))
    ensures Inv(hash, NextStep(hash, w, s))
  {
    assert CallOk(hash, w.docs, w.calls[s]);
    match w.calls[s].phase {
      case Begin =>
        if Normalize(w.calls[s].request.content) == None {
          MoveKeeps(hash, w, s, Finished(InvalidContent));
        } else {
          MoveKeeps(hash, w, s, Searching(Normalize(w.calls[s].request.content).value));
        }
      case Searching(content) => SearchKeeps(hash, w, s, content, Creating(content));
      case Creating(content) => CreateKeeps(hash, w, s, content);
      case Retrying(content) => SearchKeeps(hash, w, s, content, Finished(Unavailable));
      case Recorded(doc, created, event) => CommitKeeps(hash, w, s, Success(doc, created));
    }
  }

  lemma ApplyKeeps(hash: Hash, w: World, a: Action)
    requires Inv(hash, w) && Allowed(hash, w, a)
    ensures Inv(hash, Apply(hash, w, a))
  {
    match a {
      case Open(s, r, newId) => OpenKeeps(hash, w, s, r, newId);
      case Advance(s) => AdvanceKeeps(hash, w, s);
      case Fault(s) => ReleaseKeeps(hash, w, s);
      case LoseAcknowledgement(s) => CommitKeeps(hash, w, s, Unavailable);
    }
  }

  lemma {:induction false} RunInv(hash: Hash, ws: seq<World>, n: nat)
    requires Run(hash, ws) && n < |ws|
    ensures Inv(hash, ws[n])
  {
    if n == 0 {
      InitialInv(hash, ws[0]);
    } else {
      RunInv(hash, ws, n - 1);
      assert StepAt(hash, ws, n - 1);
      var a :| Allowed(hash, ws[n - 1], a) && ws[n] == Apply(hash, ws[n - 1], a);
      ApplyKeeps(hash, ws[n - 1], a);
    }
  }

  // ---------------------------------------------------------------- content-addressed ingestion

  function Last(ws: seq<World>): World
    requires |ws| > 0
  {
    ws[|ws| - 1]
  }

  /** At most one document per source name and content hash. */
  lemma OneDocumentPerKey(hash: Hash, ws: seq<World>, i: nat, j: nat)
    requires Run(hash, ws) && i < |Last(ws).docs| && j < |Last(ws).docs|
    requires Last(ws).docs[i].sourceName == Last(ws).docs[j].sourceName
    requires Last(ws).docs[i].contentHash == Last(ws).docs[j].contentHash
    ensures i == j
  {
    RunInv(hash, ws, |ws| - 1);
  }

  predicate Succeeded(w: World, s: SessionId) {
    s in w.calls && w.calls[s].phase.Finished? && w.calls[s].phase.outcome.Success?
  }

  /** Two successful calls return the same committed document exactly when source and content hash are the same. */
  lemma SuccessesAgree(hash: Hash, ws: seq<World>, s: SessionId, t: SessionId)
    requires Run(hash, ws) && Succeeded(Last(ws), s) && Succeeded(Last(ws), t)
    ensures Last(ws).calls[s].phase.outcome.doc in Last(ws).docs
    ensures Normalize(Last(ws).calls[s].request.content).Some? && Normalize(Last(ws).calls[t].request.content).Some?
    ensures
      var c, d := Last(ws).calls[s], Last(ws).calls[t];
      c.phase.outcome.doc == d.phase.outcome.doc
      <==> c.request.sourceName == d.request.sourceName
           && hash(Normalize(c.request.content).value) == hash(Normalize(d.request.content).value)
  {
    var w := Last(ws);
    RunInv(hash, ws, |ws| - 1);
    assert CallOk(hash, w.docs, w.calls[s]) && CallOk(hash, w.docs, w.calls[t]);
    FindMeans(w.docs, CallKey(hash, w.calls[s].request, Normalize(w.calls[s].request.content).value));
    FindMeans(w.docs, CallKey(hash, w.calls[t].request, Normalize(w.calls[t].request.content).value));
  }

  ghost predicate CollisionFree(hash: Hash) {
    forall a, b :: hash(a) == hash(b) ==> a == b
  }

  /** Where the hash tells contents apart, what is returned holds the caller's own normalized content. */
  lemma SuccessHoldsTheContent(hash: Hash, ws: seq<World>, s: SessionId)
    requires Run(hash, ws) && Succeeded(Last(ws), s) && CollisionFree(hash)
    ensures var c := Last(ws).calls[s];
            && Some(c.phase.outcome.doc.content) == Normalize(c.request.content)
            && TrimmedTo(Unified(c.request.content), c.phase.outcome.doc.content)
            && c.phase.outcome.doc.sourceName == c.request.sourceName
  {
    var w := Last(ws);
    var c := w.calls[s];
    RunInv(hash, ws, |ws| - 1);
    assert CallOk(hash, w.docs, c);
    NormalizeKeepsText(c.request.content);
    FindMeans(w.docs, CallKey(hash, c.request, Normalize(c.request.content).value));
    var d := c.phase.outcome.doc;
    var i :| 0 <= i < |w.docs| && w.docs[i] == d;
    assert d.contentHash == hash(d.content);
  }

  /** Exactly one committed event says `changed` for a document, and none for an identifier that is no document. */
  lemma OneChangedEventPerDocument(hash: Hash, ws: seq<World>, id: DocId)
    requires Run(hash, ws)
    ensures ChangedEvents(Last(ws).audit, id) == if Exists(Last(ws).docs, id) then 1 else 0
  {
    RunInv(hash, ws, |ws| - 1);
  }

  /** A call that lost the race for the key always finds the winner's document. */
  lemma LostRaceFindsTheWinner(hash: Hash, ws: seq<World>, s: SessionId)
    requires Run(hash, ws) && s in Last(ws).calls && Last(ws).calls[s].phase.Retrying?
    ensures NextStep(hash, Last(ws), s).calls[s].phase.Recorded? && !NextStep(hash, Last(ws), s).calls[s].phase.created
  {
    RunInv(hash, ws, |ws| - 1);
    assert CallOk(hash, Last(ws).docs, Last(ws).calls[s]);
  }

  /** No deadlock: whoever an insert waits for has only its commit left. */
  lemma WaitersWaitForCommits(hash: Hash, ws: seq<World>, s: SessionId)
    requires Run(hash, ws) && s in Last(ws).calls && Blocked(hash, Last(ws), s)
    ensures var c := Last(ws).calls[s];
            var holder := Last(ws).locks[CallKey(hash, c.request, c.phase.content)];
            Allowed(hash, Last(ws), Advance(holder)) && Last(ws).calls[holder].phase.Recorded?
  {
    var w := Last(ws);
    RunInv(hash, ws, |ws| - 1);
    var k := CallKey(hash, w.calls[s].request, w.calls[s].phase.content);
    assert Holds(w.calls[w.locks[k]], k);
  }

  // ---------------------------------------------------------------- an undisturbed call

  /** Up to `n` steps of session `s` and of no one else. */
  function Settle(hash: Hash, w: World, s: SessionId, n: nat): World
    decreases n
  {
    if n == 0 || !Live(w, s) then w else Settle(hash, NextStep(hash, w, s), s, n - 1)
  }

  predicate EndsWith(w: World, s: SessionId, outcome: Outcome, docs: seq<Document>, audit: seq<Event>) {
    s in w.calls && w.calls[s].phase == Finished(outcome) && w.docs == docs && w.audit == audit
  }

  /** The event of a call on a document. */
  function Report(actor: ActorId, d: Document, changed: bool): Event {
    Ingested(actor, d.id, d.sourceType, d.contentHash, |d.content|, changed)
  }

  lemma FoundEnds(hash: Hash, w: World, s: SessionId, content: string, d: Document)
    requires s in w.calls && w.calls[s].phase == Searching(content)
    requires Find(w.docs, CallKey(hash, w.calls[s].request, content)) == Some(d)
    ensures EndsWith(Settle(hash, w, s, 3), s, Success(d, false), w.docs,
                     w.audit + [Report(w.calls[s].request.actor, d, false)])
  {
    var w1 := NextStep(hash, w, s);
    var w2 := NextStep(hash, w1, s);
    assert Settle(hash, w, s, 3) == Settle(hash, w1, s, 2) == Settle(hash, w2, s, 1) == w2;
  }

  lemma NewEnds(hash: Hash, w: World, s: SessionId, content: string)
    requires s in w.calls && w.calls[s].phase == Searching(content)
    requires Find(w.docs, CallKey(hash, w.calls[s].request, content)) == None
    ensures
      var c, r := w.calls[s], w.calls[s].request;
      var d := Document(c.newId, r.title, r.sourceType, r.sourceName, content, hash(content), r.actor);
      EndsWith(Settle(hash, w, s, 3), s, Success(d, true), w.docs + [d], w.audit + [Report(r.actor, d, true)])
  {
    var w1 := NextStep(hash, w, s);
    var w2 := NextStep(hash, w1, s);
    var w3 := NextStep(hash, w2, s);
    assert Settle(hash, w, s, 3) == Settle(hash, w1, s, 2) == Settle(hash, w2, s, 1) == Settle(hash, w3, s, 0) == w3;
  }

  /** Some document has this source name and content hash. */
  predicate HasDocument(docs: seq<Document>, sourceName: string, contentHash: string) {
    exists i | 0 <= i < |docs| :: docs[i].sourceName == sourceName && docs[i].contentHash == contentHash
  }

  lemma FindFinds(docs: seq<Document>, sourceName: string, contentHash: string)
    ensures Find(docs, Key(sourceName, contentHash)).Some? <==> HasDocument(docs, sourceName, contentHash)
    ensures Find(docs, Key(sourceName, contentHash)).Some? ==>
              var d := Find(docs, Key(sourceName, contentHash)).value;
              d in docs && d.sourceName == sourceName && d.contentHash == contentHash
  {
    FindMeans(docs, Key(sourceName, contentHash));
    if i :| 0 <= i < |docs| && docs[i].sourceName == sourceName && docs[i].contentHash == contentHash {
      assert docs[i] in docs && KeyOf(docs[i]) == Key(sourceName, contentHash);
    }
  }

  /**
   * Undisturbed, ingest refuses white space, returns the document that has the source name and the hash of the trimmed
   * content as unchanged, and otherwise stores a new one with the caller's fields and the trimmed content as changed.
   */
  lemma IngestsExactly(hash: Hash, w: World, s: SessionId, content: string)
    requires s in w.calls && w.calls[s].phase == Begin && TrimmedTo(Unified(w.calls[s].request.content), content)
    ensures
      var c, r := w.calls[s], w.calls[s].request;
      var w' := Settle(hash, w, s, 4);
      if content == "" then
        EndsWith(w', s, InvalidContent, w.docs, w.audit)
      else if HasDocument(w.docs, r.sourceName, hash(content)) then
        exists d :: d in w.docs && d.sourceName == r.sourceName && d.contentHash == hash(content)
                    && EndsWith(w', s, Success(d, false), w.docs, w.audit + [Report(r.actor, d, false)])
      else
        var d := Document(c.newId, r.title, r.sourceType, r.sourceName, content, hash(content), r.actor);
        EndsWith(w', s, Success(d, true), w.docs + [d], w.audit + [Report(r.actor, d, true)])
  {
    var r := w.calls[s].request;
    var w1 := NextStep(hash, w, s);
    NormalizesTo(r.content, content);
    if content == "" {
      assert Settle(hash, w, s, 4) == Settle(hash, w1, s, 3) == w1;
    } else {
      FindFinds(w.docs, r.sourceName, hash(content));
      if HasDocument(w.docs, r.sourceName, hash(content)) {
        FoundEnds(hash, w1, s, content, Find(w.docs, CallKey(hash, r, content)).value);
      } else {
        NewEnds(hash, w1, s, content);
      }
    }
  }

  lemma NormalizesTo(whole: string, content: string)
    requires TrimmedTo(Unified(whole), content)
    ensures Normalize(whole) == if content == "" then None else Some(content)
  {
    TrimIsStrip(Unified(whole), content);
    TwoPassesUnify(whole);
  }
}
