/** What approve and reject decide when no other session interferes: each call against one judgement of its inputs. */
module ApprovalAlone {
  import opened Wrappers
  import opened ApprovalTypes
  import opened ApprovalMachine
  import opened AuditTrail
  import opened ApprovalTheorems
  import opened ApprovalRuns

  datatype Verdict = Executes(row: Approval, grant: Grant) | Expires(row: Approval) | Refuses(error: Error)

  /** The order in which approve's checks speak. */
  function Judge(w: World, registry: Registry, id: ApprovalId, approver: UserId): Verdict {
    if id !in w.tables.approvals then Refuses(ApprovalNotFound)
    else
      var row := w.tables.approvals[id];
      if !HasPermission(w, approver, DECIDE) then Refuses(PermissionDenied)
      else if row.status != Pending || PendingTool(registry, row) == None then Refuses(StateConflict)
      else if w.clock >= row.expiresAt then Expires(row)
      else JudgeAction(w, row, PendingTool(registry, row).value)
  }

  function JudgeAction(w: World, row: Approval, tool: Tool): Verdict {
    if !HasPermission(w, row.requester, tool.permission) then Refuses(PermissionDenied)
    else if tool.approvalExecutor == None then Refuses(StateConflict)
    else if tool.approvalExecutor == Some(OtherExecutor) || row.arguments == Unparseable then Refuses(ToolExecution)
    else if row.arguments.user !in w.tables.users || SUPPORT_ROLE !in w.catalog then Refuses(StateConflict)
    else Executes(row, Grant(row.arguments.user, SUPPORT_ROLE))
  }

  /** Up to `n` steps of session `s` and of no one else. */
  function Settle(w: World, s: SessionId, n: nat): World
    decreases n
  {
    if n == 0 || !Running(w, s) then w else Settle(NextStep(w, s), s, n - 1)
  }

  /** How the call ends: its outcome, and the tables it leaves. */
  predicate Ends(w: World, s: SessionId, n: nat, tables: Tables, outcome: Outcome) {
    var w' := Settle(w, s, n);
    s in w'.calls && w'.calls[s].phase == Finished(outcome) && w'.tables == tables
  }

  predicate Carries(w: World, s: SessionId, n: nat, v: Verdict, id: ApprovalId, approver: UserId, now: Time) {
    match v
    case Executes(row, g) =>
      Ends(w, s, n, Install(w.tables, ExecuteWrites(id, row, approver, now, g, g !in w.tables.grants)),
           Snapshot(id, ExecutedRow(row, approver, now)))
    case Expires(row) => Ends(w, s, n, Install(w.tables, ExpireWrites(id, row, approver, now)), Failed(StateConflict))
    case Refuses(e) => Ends(w, s, n, w.tables, Failed(e))
  }

  lemma FromUnwinding(w: World, s: SessionId, n: nat, o: Outcome)
    requires s in w.calls && w.calls[s].phase == Unwinding(o) && n >= 1
    ensures Ends(w, s, n, w.tables, o)
  {
    assert Settle(NextStep(w, s), s, n - 1) == NextStep(w, s);
  }

  lemma FromWriting(w: World, s: SessionId, n: nat, o: Outcome)
    requires s in w.calls && w.calls[s].phase == Writing(o) && n >= 2
    ensures Ends(w, s, n, Install(w.tables, w.calls[s].writes), o)
  {
    var w1 := NextStep(w, s);
    if o.Failed? {
      FromUnwinding(w1, s, n - 1, o);
    } else {
      assert Settle(w1, s, n - 1) == w1;
    }
  }

  /** Reads see the same in both worlds. */
  predicate SameReads(w: World, w': World) {
    w'.tables == w.tables && w'.catalog == w.catalog && w'.clock == w.clock
  }

  lemma SameJudgement(w: World, w': World, registry: Registry, id: ApprovalId, approver: UserId)
    requires SameReads(w, w')
    ensures Judge(w', registry, id, approver) == Judge(w, registry, id, approver)
  {
    SamePermissions(w, w');
  }

  lemma SamePermissions(w: World, w': World)
    requires SameReads(w, w')
    ensures forall user, permission :: HasPermission(w', user, permission) == HasPermission(w, user, permission)
  {
  }

  lemma SameAction(w: World, w': World, row: Approval, tool: Tool)
    requires SameReads(w, w')
    ensures JudgeAction(w', row, tool) == JudgeAction(w, row, tool)
  {
    SamePermissions(w, w');
  }

  /** A step that only moves the call on leaves its end to the steps that follow. */
  lemma CarriesOn(w: World, s: SessionId, n: nat, v: Verdict, id: ApprovalId, approver: UserId, now: Time)
    requires Running(w, s) && n > 0 && NextStep(w, s).tables == w.tables
    requires Carries(NextStep(w, s), s, n - 1, v, id, approver, now)
    ensures Carries(w, s, n, v, id, approver, now)
  {
  }

  lemma InsertBuffers(w: World, s: SessionId, row: Approval, now: Time, g: Grant)
    requires s in w.calls && w.calls[s].phase == Granting(row, now, g) && w.calls[s].request.Approve?
    ensures
      var r, w' := w.calls[s].request, NextStep(w, s);
      && s in w'.calls && w'.calls[s].phase == Writing(Snapshot(r.id, ExecutedRow(row, r.approver, now)))
      && w'.calls[s].writes == ExecuteWrites(r.id, row, r.approver, now, g, g !in w.tables.grants)
      && w'.tables == w.tables
  {
  }

  lemma FromGranting(w: World, s: SessionId, n: nat, row: Approval, now: Time, g: Grant)
    requires s in w.calls && w.calls[s].phase == Granting(row, now, g) && w.calls[s].request.Approve? && n >= 3
    ensures Carries(w, s, n, Executes(row, g), w.calls[s].request.id, w.calls[s].request.approver, now)
  {
    var r := w.calls[s].request;
    InsertBuffers(w, s, row, now, g);
    FromWriting(NextStep(w, s), s, n - 1, Snapshot(r.id, ExecutedRow(row, r.approver, now)));
  }

  lemma FromPermitted(w: World, s: SessionId, n: nat, row: Approval, now: Time, tool: Tool)
    requires s in w.calls && w.calls[s].phase == Permitted(row, now, tool) && w.calls[s].request.Approve? && n >= 4
    requires HasPermission(w, row.requester, tool.permission)
    ensures Carries(w, s, n, JudgeAction(w, row, tool), w.calls[s].request.id, w.calls[s].request.approver, now)
  {
    match JudgeAction(w, row, tool) {
      case Executes(_, g) => FromGranting(NextStep(w, s), s, n - 1, row, now, g);
      case Refuses(e) => FromUnwinding(NextStep(w, s), s, n - 1, Failed(e));
    }
  }

  lemma FromTimed(w: World, s: SessionId, n: nat, row: Approval, now: Time, tool: Tool)
    requires s in w.calls && w.calls[s].phase == Timed(row, now, tool) && w.calls[s].request.Approve? && n >= 5
    ensures Carries(w, s, n, JudgeAction(w, row, tool), w.calls[s].request.id, w.calls[s].request.approver, now)
  {
    var w1 := NextStep(w, s);
    if HasPermission(w, row.requester, tool.permission) {
      SamePermissions(w, w1);
      SameAction(w, w1, row, tool);
      FromPermitted(w1, s, n - 1, row, now, tool);
      CarriesOn(w, s, n, JudgeAction(w, row, tool), w.calls[s].request.id, w.calls[s].request.approver, now);
    } else {
      FromUnwinding(w1, s, n - 1, Failed(PermissionDenied));
    }
  }

  lemma FromAuthorised(w: World, s: SessionId, n: nat, row: Approval)
    requires s in w.calls && w.calls[s].phase == Authorised(row) && w.calls[s].request.Approve? && n >= 6
    requires var r := w.calls[s].request;
             r.id in w.tables.approvals && w.tables.approvals[r.id] == row && HasPermission(w, r.approver, DECIDE)
    ensures var r := w.calls[s].request;
            Carries(w, s, n, Judge(w, r.registry, r.id, r.approver), r.id, r.approver, w.clock)
  {
    var r := w.calls[s].request;
    var w1 := NextStep(w, s);
    if row.status != Pending || PendingTool(r.registry, row) == None {
      FromUnwinding(w1, s, n - 1, Failed(StateConflict));
    } else if w.clock >= row.expiresAt {
      FromWriting(w1, s, n - 1, Failed(StateConflict));
    } else {
      var tool := PendingTool(r.registry, row).value;
      SameAction(w, w1, row, tool);
      FromTimed(w1, s, n - 1, row, w.clock, tool);
      CarriesOn(w, s, n, JudgeAction(w, row, tool), r.id, r.approver, w.clock);
    }
  }

  lemma FromLocked(w: World, s: SessionId, n: nat, row: Approval)
    requires s in w.calls && w.calls[s].phase == Locked(row) && w.calls[s].request.Approve? && n >= 7
    requires w.calls[s].request.id in w.tables.approvals && w.tables.approvals[w.calls[s].request.id] == row
    ensures var r := w.calls[s].request;
            Carries(w, s, n, Judge(w, r.registry, r.id, r.approver), r.id, r.approver, w.clock)
  {
    var r := w.calls[s].request;
    var w1 := NextStep(w, s);
    if HasPermission(w, r.approver, DECIDE) {
      SamePermissions(w, w1);
      SameJudgement(w, w1, r.registry, r.id, r.approver);
      FromAuthorised(w1, s, n - 1, row);
      CarriesOn(w, s, n, Judge(w, r.registry, r.id, r.approver), r.id, r.approver, w.clock);
    } else {
      FromUnwinding(w1, s, n - 1, Failed(PermissionDenied));
    }
  }

  /**
   * Undisturbed, approve ends within eight steps exactly as its inputs are judged: it executes, it commits the
   * overdue row as expired and raises, or it changes nothing and raises the first check's error.
   */
  lemma ApproveAlone(w: World, s: SessionId, registry: Registry, id: ApprovalId, approver: UserId)
    requires s in w.calls && w.calls[s].phase == Begin && w.calls[s].request == Approve(registry, id, approver)
    ensures Carries(w, s, 8, Judge(w, registry, id, approver), id, approver, w.clock)
  {
    var w1 := NextStep(w, s);
    if id in w.tables.approvals {
      SameJudgement(w, w1, registry, id, approver);
      FromLocked(w1, s, 7, w.tables.approvals[id]);
      CarriesOn(w, s, 8, Judge(w, registry, id, approver), id, approver, w.clock);
    } else {
      FromUnwinding(w1, s, 7, Failed(ApprovalNotFound));
    }
  }

  // ---------------------------------------------------------------- reject

  datatype Ruling = Rejects(row: Approval) | Overdue(row: Approval) | Declines(error: Error)

  /** The order in which reject's checks speak. */
  function JudgeReject(w: World, registry: Registry, id: ApprovalId, approver: UserId): Ruling {
    if id !in w.tables.approvals then Declines(ApprovalNotFound)
    else
      var row := w.tables.approvals[id];
      if !HasPermission(w, approver, DECIDE) then Declines(PermissionDenied)
      else if row.status != Pending || PendingTool(registry, row) == None then Declines(StateConflict)
      else if w.clock >= row.expiresAt then Overdue(row)
      else Rejects(row)
  }

  predicate Rules(w: World, s: SessionId, n: nat, v: Ruling, id: ApprovalId, approver: UserId, now: Time) {
    match v
    case Rejects(row) =>
      var ws := RejectWrites(id, row, approver, now);
      Ends(w, s, n, Install(w.tables, ws), Snapshot(id, ws.approval.value.1))
    case Overdue(row) => Ends(w, s, n, Install(w.tables, ExpireWrites(id, row, approver, now)), Failed(StateConflict))
    case Declines(e) => Ends(w, s, n, w.tables, Failed(e))
  }

  lemma RulesOn(w: World, s: SessionId, n: nat, v: Ruling, id: ApprovalId, approver: UserId, now: Time)
    requires Running(w, s) && n > 0 && NextStep(w, s).tables == w.tables
    requires Rules(NextStep(w, s), s, n - 1, v, id, approver, now)
    ensures Rules(w, s, n, v, id, approver, now)
  {
  }

  lemma SameRuling(w: World, w': World, registry: Registry, id: ApprovalId, approver: UserId)
    requires SameReads(w, w')
    ensures JudgeReject(w', registry, id, approver) == JudgeReject(w, registry, id, approver)
  {
    SamePermissions(w, w');
  }

  lemma RejectAuthorised(w: World, s: SessionId, n: nat, row: Approval)
    requires s in w.calls && w.calls[s].phase == Authorised(row) && w.calls[s].request.Reject? && n >= 3
    requires var r := w.calls[s].request;
             r.id in w.tables.approvals && w.tables.approvals[r.id] == row && HasPermission(w, r.approver, DECIDE)
    ensures var r := w.calls[s].request;
            Rules(w, s, n, JudgeReject(w, r.registry, r.id, r.approver), r.id, r.approver, w.clock)
  {
    var r := w.calls[s].request;
    var w1 := NextStep(w, s);
    if row.status != Pending || PendingTool(r.registry, row) == None {
      FromUnwinding(w1, s, n - 1, Failed(StateConflict));
    } else if w.clock >= row.expiresAt {
      FromWriting(w1, s, n - 1, Failed(StateConflict));
    } else {
      RejectDue(w, s, n, row);
    }
  }

  lemma RejectDue(w: World, s: SessionId, n: nat, row: Approval)
    requires s in w.calls && w.calls[s].phase == Authorised(row) && w.calls[s].request.Reject? && n >= 3
    requires row.status == Pending && PendingTool(w.calls[s].request.registry, row).Some? && w.clock < row.expiresAt
    ensures Rules(w, s, n, Rejects(row), w.calls[s].request.id, w.calls[s].request.approver, w.clock)
  {
    var r := w.calls[s].request;
    FromWriting(NextStep(w, s), s, n - 1, Snapshot(r.id, RejectWrites(r.id, row, r.approver, w.clock).approval.value.1));
  }

  lemma RejectLocked(w: World, s: SessionId, n: nat, row: Approval)
    requires s in w.calls && w.calls[s].phase == Locked(row) && w.calls[s].request.Reject? && n >= 4
    requires w.calls[s].request.id in w.tables.approvals && w.tables.approvals[w.calls[s].request.id] == row
    ensures var r := w.calls[s].request;
            Rules(w, s, n, JudgeReject(w, r.registry, r.id, r.approver), r.id, r.approver, w.clock)
  {
    var r := w.calls[s].request;
    var w1 := NextStep(w, s);
    if HasPermission(w, r.approver, DECIDE) {
      SamePermissions(w, w1);
      SameRuling(w, w1, r.registry, r.id, r.approver);
      RejectAuthorised(w1, s, n - 1, row);
      RulesOn(w, s, n, JudgeReject(w, r.registry, r.id, r.approver), r.id, r.approver, w.clock);
    } else {
      FromUnwinding(w1, s, n - 1, Failed(PermissionDenied));
    }
  }

  /** Undisturbed, reject ends within five steps exactly as its inputs are judged; it never asks for the requester. */
  lemma RejectAlone(w: World, s: SessionId, registry: Registry, id: ApprovalId, approver: UserId)
    requires s in w.calls && w.calls[s].phase == Begin && w.calls[s].request == Reject(registry, id, approver)
    ensures Rules(w, s, 5, JudgeReject(w, registry, id, approver), id, approver, w.clock)
  {
    var w1 := NextStep(w, s);
    if id in w.tables.approvals {
      SameRuling(w, w1, registry, id, approver);
      RejectLocked(w1, s, 4, w.tables.approvals[id]);
      RulesOn(w, s, 5, JudgeReject(w, registry, id, approver), id, approver, w.clock);
    } else {
      FromUnwinding(w1, s, 4, Failed(ApprovalNotFound));
    }
  }

  // ---------------------------------------------------------------- nothing in the way

  /** With no lock held elsewhere, those steps really can be taken. */
  lemma {:induction false} AloneIsARun(w: World, s: SessionId, n: nat)
    requires LocksAreOwn(w, s)
    ensures Reaches(w, Settle(w, s, n))
    decreases n
  {
    ReachesItself(w);
    if n > 0 && Running(w, s) {
      StepKeepsOwnLocks(w, s);
      AloneIsARun(NextStep(w, s), s, n - 1);
      assert Step(w, NextStep(w, s)) by {
        assert Allowed(w, Advance(s)) && NextStep(w, s) == Apply(w, Advance(s));
      }
      ReachesFrom(w, NextStep(w, s), Settle(w, s, n));
    }
  }

  /** No other session holds a lock that `s` may still wait for. */
  predicate LocksAreOwn(w: World, s: SessionId) {
    s in w.calls
    && match w.calls[s].phase
       case Begin => w.rowLocks == map[] && w.keyLocks == map[]
       case Writing(_) => true
       case Unwinding(_) => true
       case Finished(_) => true
       case _ => w.keyLocks == map[]
  }

  /** A step that locks no key, or after which nothing is waited for. */
  predicate EasesLocks(w: World, w': World, s: SessionId) {
    && s in w'.calls && !w'.calls[s].phase.Begin?
    && var p := w'.calls[s].phase;
    (w'.keyLocks == w.keyLocks || p.Writing? || p.Unwinding? || p.Finished?)
  }

  lemma FirstStepEases(w: World, s: SessionId)
    requires s in w.calls && w.calls[s].phase == Begin
    ensures EasesLocks(w, FirstStep(w, s), s)
  {
  }

  lemma CheckPendingEases(w: World, s: SessionId, row: Approval)
    requires s in w.calls && w.calls[s].phase == Authorised(row)
    ensures EasesLocks(w, CheckPending(w, s, row), s)
  {
  }

  lemma StepEases(w: World, s: SessionId)
    requires Running(w, s)
    ensures EasesLocks(w, NextStep(w, s), s)
  {
    match w.calls[s].phase {
      case Begin => FirstStepEases(w, s);
      case Authorised(row) => CheckPendingEases(w, s, row);
      case Writing(_) =>
      case Unwinding(_) =>
      case _ => MiddleStepEases(w, s);
    }
  }

  lemma MiddleStepEases(w: World, s: SessionId)
    requires Running(w, s) && !w.calls[s].phase.Begin? && !w.calls[s].phase.Authorised?
    requires !w.calls[s].phase.Writing? && !w.calls[s].phase.Unwinding?
    ensures EasesLocks(w, NextStep(w, s), s)
  {
    match w.calls[s].phase {
      case ActionAllowed =>
      case RowRead(_) =>
      case Locked(_) =>
      case Timed(_, _, _) =>
      case Permitted(_, _, _) =>
      case Granting(_, _, _) =>
      case RoleTarget(_) =>
      case Scanned(_, _) =>
    }
  }

  lemma StepKeepsOwnLocks(w: World, s: SessionId)
    requires LocksAreOwn(w, s) && Running(w, s)
    ensures !Blocked(w, s) && LocksAreOwn(NextStep(w, s), s)
  {
    StepEases(w, s);
  }
}
