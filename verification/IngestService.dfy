/** KnowledgeService.ingest, statement by statement, among other sessions on the same table. */
module IngestService {
  import opened Wrappers
  import opened Text
  import opened Normalization
  import opened IngestMachine
  import opened IngestTheorems
  import Runs

  ghost function Steps(hash: Hash): (World, World) -> bool {
    (w: World, w': World) => Step(hash, w, w')
  }

  ghost predicate Reaches(hash: Hash, w: World, w': World) {
    Runs.Leads(Steps(hash), w, w')
  }

  lemma ForeignKeepsCall(hash: Hash, w: World, a: Action, s: SessionId)
    requires Allowed(hash, w, a) && a.session != s && s in w.calls
    ensures s in Apply(hash, w, a).calls && Apply(hash, w, a).calls[s] == w.calls[s]
  {
  }

  /** Documents, audit log, key locks and sessions. */
  class DocumentStore {
    const hash: Hash
    var docs: seq<Document>
    var audit: seq<Event>
    var locks: map<Key, SessionId>
    var calls: map<SessionId, Call>

    constructor (hash: Hash)
      ensures this.hash == hash && Initial(View())
    {
      this.hash := hash;
      docs, audit, locks, calls := [], [], map[], map[];
    }

    function View(): World
      reads this
    {
      World(docs, audit, locks, calls)
    }

    predicate At(s: SessionId, r: Request, newId: DocId, phase: Phase)
      reads this
    {
      s in calls && calls[s] == Call(r, newId, phase)
    }

    /** The state is good and was reached from `w`. */
    ghost predicate Since(w: World)
      reads this
    {
      Inv(hash, View()) && Reaches(hash, w, View())
    }

    ghost method Stepped(w: World, w1: World, a: Action)
      requires Inv(hash, w1) && Reaches(hash, w, w1) && Allowed(hash, w1, a) && View() == Apply(hash, w1, a)
      ensures Since(w)
    {
      assert Step(hash, w1, View());
      Runs.LeadsFurther(Steps(hash), w, w1, View());
      ApplyKeeps(hash, w1, a);
    }

    method Open(s: SessionId, r: Request, newId: DocId)
      requires Inv(hash, View()) && Allowed(hash, View(), Action.Open(s, r, newId))
      modifies this`calls
      ensures Since(old(View())) && At(s, r, newId, Begin)
    {
      ghost var w := View();
      calls := calls[s := Call(r, newId, Begin)];
      Runs.LeadsToItself(Steps(hash), w);
      Stepped(w, w, Action.Open(s, r, newId));
    }

    /** Before a statement of session `s`: others run, and the statement may fail with a database error. */
    method Interrupt(s: SessionId, ghost w: World) returns (failed: bool)
      requires Since(w) && Live(View(), s)
      modifies this
      ensures Since(w) && s in calls
      ensures calls[s] == if failed then old(calls[s]).(phase := Finished(Unavailable)) else old(calls[s])
    {
      var todo: seq<Action> := *;
      for i := 0 to |todo|
        invariant Since(w) && s in calls && calls[s] == old(calls[s])
      {
        if todo[i].session != s && Allowed(hash, View(), todo[i]) {
          ghost var w1 := View();
          ForeignKeepsCall(hash, w1, todo[i], s);
          var w' := Apply(hash, View(), todo[i]);
          docs, audit, locks, calls := w'.docs, w'.audit, w'.locks, w'.calls;
          Stepped(w, w1, todo[i]);
        }
      }
      failed := *;
      if failed {
        ghost var w1 := View();
        ReleaseLocks(s, Finished(Unavailable));
        Stepped(w, w1, Fault(s));
      }
    }

    method Move(s: SessionId, phase: Phase)
      requires s in calls
      modifies this`calls
      ensures View() == Put(old(View()), s, phase)
    {
      calls := calls[s := calls[s].(phase := phase)];
    }

    /** The server side of a commit. */
    method Install(s: SessionId, o: Outcome)
      requires s in calls && calls[s].phase.Recorded?
      modifies this
      ensures View() == Commit(old(View()), s, o)
    {
      if calls[s].phase.created {
        docs := docs + [calls[s].phase.doc];
      }
      audit := audit + [calls[s].phase.event];
      ReleaseLocks(s, Finished(o));
    }

    method ReleaseLocks(s: SessionId, phase: Phase)
      requires s in calls
      modifies this`calls, this`locks
      ensures View() == Release(old(View()), s, phase)
    {
      calls := calls[s := calls[s].(phase := phase)];
      locks := map k | k in locks && locks[k] != s :: locks[k];
    }
  }

  class KnowledgeService {
    const store: DocumentStore

    constructor (store: DocumentStore)
      ensures this.store == store
    {
      this.store := store;
    }

    /** The call has its document and its audit event, and only the commit left. */
    predicate Recording(s: SessionId, r: Request, newId: DocId)
      reads store
    {
      && s in store.calls && store.calls[s].request == r && store.calls[s].newId == newId
      && store.calls[s].phase.Recorded?
      && store.calls[s].phase.event == EventOf(r.actor, store.calls[s].phase.doc, store.calls[s].phase.created)
    }

    /** One lookup: the document, or on to `missing`; None in case of a database error. */
    method Lookup(s: SessionId, r: Request, newId: DocId, ghost w: World, content: string, retry: bool)
      returns (found: Option<bool>)
      requires store.Since(w) && store.At(s, r, newId, if retry then Retrying(content) else Searching(content))
      modifies store
      ensures store.Since(w)
      ensures match found
              case None => store.At(s, r, newId, Finished(Unavailable))
              case Some(false) => store.At(s, r, newId, if retry then Finished(Unavailable) else Creating(content))
              case Some(true) => Recording(s, r, newId)
    {
      var failed := store.Interrupt(s, w);
      if failed {
        return None;
      }
      ghost var w1 := store.View();
      var document := Find(store.docs, CallKey(store.hash, r, content));
      if document == None {
        store.Move(s, if retry then Finished(Unavailable) else Creating(content));
      } else {
        store.Move(s, Recorded(document.value, false, EventOf(r.actor, document.value, false)));
      }
      store.Stepped(w, w1, Advance(s));
      found := Some(document.Some?);
    }

    /** The insert inside its savepoint, waiting for the key. */
    method Create(s: SessionId, r: Request, newId: DocId, ghost w: World, content: string)
      returns (created: Option<bool>)
      requires store.Since(w) && store.At(s, r, newId, Creating(content))
      modifies store
      ensures store.Since(w)
      ensures match created
              case None => store.At(s, r, newId, Finished(Unavailable))
              case Some(false) => store.At(s, r, newId, Retrying(content))
              case Some(true) => Recording(s, r, newId)
    {
      var failed := store.Interrupt(s, w);
      var k := CallKey(store.hash, r, content);
      var patience: nat := *;
      while !failed && k in store.locks && store.locks[k] != s && patience > 0
        invariant store.Since(w)
        invariant store.At(s, r, newId, if failed then Finished(Unavailable) else Creating(content))
        decreases patience
      {
        failed := store.Interrupt(s, w);
        patience := patience - 1;
      }
      if failed {
        return None;
      }
      ghost var w1 := store.View();
      if k in store.locks && store.locks[k] != s {
        store.ReleaseLocks(s, Finished(Unavailable));
        store.Stepped(w, w1, Fault(s));
        return None;
      }
      if Find(store.docs, k).Some? {
        store.Move(s, Retrying(content));
        created := Some(false);
      } else {
        var d := NewDocument(store.hash, Call(r, newId, Begin), content);
        store.Move(s, Recorded(d, true, EventOf(r.actor, d, true)));
        store.locks := store.locks[k := s];
        created := Some(true);
      }
      store.Stepped(w, w1, Advance(s));
    }

    lemma CreatedFits(s: SessionId, r: Request, newId: DocId)
      requires Inv(store.hash, store.View()) && Recording(s, r, newId)
      ensures store.calls[s].phase.created ==> CreatedFor(r, newId, store.calls[s].phase.doc)
    {
      assert CallOk(store.hash, store.docs, store.calls[s]);
      if store.calls[s].phase.created {
        NormalizeKeepsText(r.content);
      }
    }

    /** session.commit(): it may fail before or after the server took the transaction. */
    method CommitWrites(s: SessionId, r: Request, newId: DocId, ghost w: World) returns (o: Outcome)
      requires store.Since(w) && Recording(s, r, newId)
      modifies store
      ensures store.Since(w) && store.At(s, r, newId, Finished(o))
      ensures o == Unavailable || o == Success(old(store.calls[s]).phase.doc, old(store.calls[s]).phase.created)
      ensures o.Success? ==> Reported(r, o) && (o.changed ==> CreatedFor(r, newId, o.doc))
    {
      CreatedFits(s, r, newId);
      var failed := store.Interrupt(s, w);
      if failed {
        return Unavailable;
      }
      ghost var w1 := store.View();
      var p := store.calls[s].phase;
      var acknowledged: bool := *;
      o := if acknowledged then Success(p.doc, p.created) else Unavailable;
      store.Install(s, o);
      store.Stepped(w, w1, if acknowledged then Advance(s) else LoseAcknowledgement(s));
    }

    /**
     * ingest: a success returns the committed document under the normalized content's key, and its audit event is
     * the last one committed; every run of it is a run of the machine.
     */
    method Ingest(s: SessionId, r: Request, newId: DocId) returns (o: Outcome)
      requires Inv(store.hash, store.View()) && Allowed(store.hash, store.View(), Action.Open(s, r, newId))
      modifies store
      ensures store.Since(old(store.View())) && store.At(s, r, newId, Finished(o))
      ensures o.InvalidContent? <==> AllSpace(r.content)
      ensures o.Success? ==> FoundFor(store.hash, store.docs, r, o.doc)
      ensures o.Success? ==> o.doc in store.docs && HoldsContent(r, o.doc)
      ensures o.Success? ==> Reported(r, o) && (o.changed ==> CreatedFor(r, newId, o.doc))
    {
      NormalizeKeepsText(r.content);
      ghost var w := store.View();
      store.Open(s, r, newId);
      ghost var w1 := store.View();
      var normalized := Normalize(r.content);
      if normalized == None {
        store.Move(s, Finished(InvalidContent));
        store.Stepped(w, w1, Advance(s));
        return InvalidContent;
      }
      store.Move(s, Searching(normalized.value));
      store.Stepped(w, w1, Advance(s));
      o := Persist(s, r, newId, w, normalized.value);
      assert CallOk(store.hash, store.docs, store.calls[s]);
      if o.Success? {
        FindMeans(store.docs, CallKey(store.hash, r, normalized.value));
        assert Hashed(store.hash, store.docs);
      }
    }

    /** The call's event is the last one committed: who ingested which document, of what type, hash and length. */
    predicate Reported(r: Request, o: Outcome)
      requires o.Success?
      reads store
    {
      && store.audit != []
      && store.audit[|store.audit| - 1]
         == Ingested(r.actor, o.doc.id, o.doc.sourceType, o.doc.contentHash, |o.doc.content|, o.changed)
    }

    /** A new document has the drawn identifier and the caller's fields, and its content is the caller's, trimmed. */
    ghost predicate CreatedFor(r: Request, newId: DocId, d: Document) {
      && d.id == newId && d.title == r.title && d.sourceType == r.sourceType && d.sourceName == r.sourceName
      && d.createdBy == r.actor && TrimmedTo(Unified(r.content), d.content)
    }

    /**
     * A document, new or old, has the source name and the hash of the caller's trimmed content; where the hash tells
     * contents apart it has that content.
     */
    ghost predicate HoldsContent(r: Request, d: Document) {
      exists content ::
        && content != "" && TrimmedTo(Unified(r.content), content)
        && d.sourceName == r.sourceName && d.contentHash == store.hash(content) == store.hash(d.content)
        && (CollisionFree(store.hash) ==> d.content == content)
    }

    method Persist(s: SessionId, r: Request, newId: DocId, ghost w: World, content: string) returns (o: Outcome)
      requires store.Since(w) && store.At(s, r, newId, Searching(content))
      modifies store
      ensures store.Since(w) && store.At(s, r, newId, Finished(o)) && !o.InvalidContent?
      ensures o.Success? ==> Reported(r, o) && (o.changed ==> CreatedFor(r, newId, o.doc))
    {
      var found := Lookup(s, r, newId, w, content, false);
      if found == None {
        return Unavailable;
      }
      if !found.value {
        var ready := CreateOrRetry(s, r, newId, w, content);
        if !ready {
          return Unavailable;
        }
      }
      o := CommitWrites(s, r, newId, w);
    }

    /** The insert, and the second lookup when another session took the key first. */
    method CreateOrRetry(s: SessionId, r: Request, newId: DocId, ghost w: World, content: string) returns (ready: bool)
      requires store.Since(w) && store.At(s, r, newId, Creating(content))
      modifies store
      ensures store.Since(w)
      ensures if ready then Recording(s, r, newId) else store.At(s, r, newId, Finished(Unavailable))
    {
      var created := Create(s, r, newId, w, content);
      if created == None {
        return false;
      }
      if created.value {
        return true;
      }
      var found := Lookup(s, r, newId, w, content, true);
      ready := found == Some(true);
    }
  }
}
