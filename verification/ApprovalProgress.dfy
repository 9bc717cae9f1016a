/** Lock waits: who waits for whom, and why some unfinished session can always step. */
module ApprovalProgress {
  import opened Wrappers
  import opened ApprovalTypes
  import opened ApprovalMachine
  import opened AuditTrail
  import opened ApprovalInvariant

  /** Session `a` cannot step before `b` releases the lock `a` needs. */
  predicate WaitsFor(w: World, a: SessionId, b: SessionId) {
    Running(w, a)
    && match Needs(w.calls[a])
       case NoWait => false
       case WaitRow(id) => id in w.rowLocks && w.rowLocks[id] == b
       case WaitKey(g) => g in w.keyLocks && w.keyLocks[g] == b
  }

  function WaitRank(c: Call): nat {
    match Needs(c)
    case NoWait => 0
    case WaitKey(_) => 1
    case WaitRow(_) => 2
  }

  /** A lock owner is running and waits for less: row waits lead to key waits, key owners wait for nothing. */
  lemma WaitsAreRanked(w: World, a: SessionId, b: SessionId)
    requires Inv(w) && WaitsFor(w, a, b)
    ensures Running(w, b) && WaitRank(w.calls[b]) < WaitRank(w.calls[a])
  {
    assert RowLocksOk(w) && KeyLocksOk(w);
    assert b in w.calls && CallOk(w.tables, w.clock, w.calls[b]);
  }

  lemma {:induction false} RunnableBehind(w: World, s: SessionId) returns (r: SessionId)
    requires Inv(w) && Running(w, s)
    ensures Running(w, r) && !Blocked(w, r)
    decreases WaitRank(w.calls[s])
  {
    if Blocked(w, s) {
      var wait := Needs(w.calls[s]);
      var owner := if wait.WaitRow? then w.rowLocks[wait.id] else w.keyLocks[wait.grant];
      WaitsAreRanked(w, s, owner);
      r := RunnableBehind(w, owner);
    } else {
      r := s;
    }
  }

  /** No deadlock: in every reachable state with an unfinished session, some unfinished session can step. */
  lemma NoDeadlock(ws: seq<World>, i: nat, s: SessionId)
    requires Run(ws) && i < |ws| && Running(ws[i], s)
    ensures exists r :: Running(ws[i], r) && Allowed(ws[i], Advance(r))
  {
    RunInv(ws, i);
    var r := RunnableBehind(ws[i], s);
    assert Allowed(ws[i], Advance(r));
  }

  /** A cycle of waits is impossible: along any chain of waits the rank falls. */
  lemma {:induction false} WaitChainsEnd(w: World, chain: seq<SessionId>)
    requires Inv(w) && |chain| > 0 && Running(w, chain[0])
    requires forall k | 0 <= k < |chain| - 1 :: WaitsFor(w, chain[k], chain[k + 1])
    ensures |chain| <= 3
    ensures forall k | 0 < k < |chain| :: chain[k] != chain[0]
  {
    if |chain| > 1 {
      WaitsAreRanked(w, chain[0], chain[1]);
      if |chain| > 2 {
        WaitsAreRanked(w, chain[1], chain[2]);
        if |chain| > 3 {
          WaitsAreRanked(w, chain[2], chain[3]);
        }
      }
    }
  }

  /**
   * `already_assigned` promises nothing about the role afterwards. The executor that finds the role
   * takes no lock on it, so a removal whose snapshot saw the same row can commit first.
   */
  lemma AlreadyAssignedMayBeStale(w: World, s: SessionId, r: SessionId, g: Grant)
    requires Inv(w) && s in w.calls && r in w.calls && s != r
    requires w.calls[s].phase.Writing? && IsExecution(w.tables, w.calls[s].writes)
    requires w.calls[s].writes.events[0] == RoleAssigned(w.calls[s].writes.events[0].actor, g, false)
    requires Running(w, s) && Running(w, r)
    requires g in w.tables.grants && g !in w.keyLocks && w.calls[r].phase == Scanned(g, Some(w.tables.grants[g]))
    ensures Allowed(w, Advance(r)) && Allowed(NextStep(w, r), Advance(r))
          && Allowed(NextStep(NextStep(w, r), r), Advance(s))
    ensures
      var t := NextStep(NextStep(NextStep(w, r), r), s).tables;
      var id := w.calls[s].writes.approval.value.0;
      g !in t.grants && id in t.approvals && t.approvals[id].status == Executed
  {
    assert CallOk(w.tables, w.clock, w.calls[r]);
    RemovalOvertakes(w, s, r, g);
  }

  lemma RemovalOvertakes(w: World, s: SessionId, r: SessionId, g: Grant)
    requires s in w.calls && r in w.calls && s != r && w.calls[s].phase.Writing? && w.calls[r].request.RemoveRole?
    requires w.calls[s].writes.approval.Some? && w.calls[s].writes.approval.value.1.status == Executed
    requires w.calls[s].writes.grant == NoGrant
    requires g in w.tables.grants && g !in w.keyLocks && w.calls[r].phase == Scanned(g, Some(w.tables.grants[g]))
    ensures Allowed(w, Advance(r)) && Allowed(NextStep(w, r), Advance(r))
          && Allowed(NextStep(NextStep(w, r), r), Advance(s))
    ensures
      var t := NextStep(NextStep(NextStep(w, r), r), s).tables;
      var id := w.calls[s].writes.approval.value.0;
      g !in t.grants && id in t.approvals && t.approvals[id].status == Executed
  {
    var w1 := NextStep(w, r);
    assert w1.tables == w.tables && w1.calls[s] == w.calls[s];
    var w2 := NextStep(w1, r);
    assert w2.calls[s] == w.calls[s] && g !in w2.tables.grants;
  }
}
