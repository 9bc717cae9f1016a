/** The approval service's calls, statement by statement, with other sessions running in between. */
module ApprovalService {
  import opened Wrappers
  import opened ApprovalTypes
  import opened ApprovalMachine
  import opened ApprovalInvariant
  import opened ApprovalPermissions
  import opened ApprovalRuns
  import opened DatabaseSessions

  // ---------------------------------------------------------------- what the machine does at each statement

  lemma ExecutorStep(w: World, s: SessionId, row: Approval, now: Time, tool: Tool)
    requires s in w.calls && w.calls[s].phase == Permitted(row, now, tool)
    ensures NextStep(w, s) == RunExecutor(w, s, row, now, tool) && !Blocked(w, s)
  {
  }

  lemma CreationStep(w: World, s: SessionId)
    requires s in w.calls && w.calls[s].phase == ActionAllowed && w.calls[s].request.RequestAction?
    ensures
      var r := w.calls[s].request;
      var ws := RequestWrites(r.newId, r.actor, r.tool, r.arguments, w.clock);
      NextStep(w, s) == Buffer(w, s, ws, Snapshot(r.newId, ws.approval.value.1)) && !Blocked(w, s)
  {
  }

  lemma RequesterStep(w: World, s: SessionId, row: Approval, now: Time, tool: Tool)
    requires s in w.calls && w.calls[s].phase == Timed(row, now, tool)
    ensures NextStep(w, s) == CheckRequester(w, s, row, now, tool) && !Blocked(w, s)
  {
  }

  lemma DeciderStep(w: World, s: SessionId, row: Approval)
    requires s in w.calls && w.calls[s].phase == Locked(row) && DecidedRow(w.calls[s].request).Some?
    ensures NextStep(w, s) == if HasPermission(w, w.calls[s].request.approver, DECIDE) then Go(w, s, Authorised(row))
                              else Raise(w, s, PermissionDenied)
    ensures !Blocked(w, s)
  {
  }

  lemma PendingStep(w: World, s: SessionId, row: Approval)
    requires s in w.calls && w.calls[s].phase == Authorised(row)
    ensures NextStep(w, s) == CheckPending(w, s, row) && !Blocked(w, s)
  {
  }

  lemma ReportStep(w: World, s: SessionId, id: ApprovalId, row: Approval)
    requires s in w.calls && w.calls[s].phase == RowRead(row) && w.calls[s].request == GetApproval(id)
    ensures
      var effective := if row.status == Pending && w.clock >= row.expiresAt then Expired else row.status;
      NextStep(w, s) == Go(w, s, Unwinding(Snapshot(id, row.(status := effective)))) && !Blocked(w, s)
  {
  }

  class ApprovalService {
    const db: Database
    const registry: Registry

    constructor (db: Database, registry: Registry)
      ensures this.db == db && this.registry == registry
    {
      this.db := db;
      this.registry := registry;
    }

    // ---------------------------------------------------------------- statements

    /** select ... for update: waits for the row lock, or is cut off by a database error. */
    method GetForUpdate(s: SessionId, ghost r: Request, ghost w: World, id: ApprovalId)
      returns (row: Result<Approval, Error>)
      requires db.Since(w) && db.At(s, r, Begin) && DecidedRow(r) == Some(id)
      modifies db
      ensures db.Since(w)
      ensures if row.Ok? then db.At(s, r, Locked(row.value)) else db.Raised(s, r, row.error)
    {
      var free := db.AwaitRow(s, w, id);
      if !free {
        return Err(Unavailable);
      }
      ghost var w1 := db.View();
      if id !in db.tables.approvals {
        db.RaiseError(s, ApprovalNotFound);
        row := Err(ApprovalNotFound);
      } else {
        row := Ok(db.tables.approvals[id]);
        db.rowLocks := db.rowLocks[id := s];
        db.calls := db.calls[s := db.calls[s].(phase := Locked(row.value), held := Some(id))];
      }
      db.Stepped(s, w, w1);
    }

    method RequireDecider(s: SessionId, ghost r: Request, ghost w: World, row: Approval, approver: UserId)
      returns (ok: Result<(), Error>)
      requires db.Since(w) && db.At(s, r, Locked(row)) && DecidedRow(r).Some? && r.approver == approver
      modifies db
      ensures db.Since(w)
      ensures if ok.Ok? then db.At(s, r, Authorised(row)) else db.Raised(s, r, ok.error)
    {
      var failed := db.Interrupt(s, w);
      if failed {
        return Err(Unavailable);
      }
      ghost var w1 := db.View();
      DeciderStep(w1, s, row);
      if HasPermission(db.View(), approver, DECIDE) {
        db.Move(s, Authorised(row));
        ok := Ok(());
      } else {
        db.RaiseError(s, PermissionDenied);
        ok := Err(PermissionDenied);
      }
      db.Stepped(s, w, w1);
    }

    /** Expires the overdue row and commits; the caller raises whatever the commit did. */
    method ExpireLocked<T>(s: SessionId, ghost r: Request, ghost w: World, id: ApprovalId, row: Approval,
                           actor: UserId, now: Time)
      returns (due: Result<T, Error>)
      requires db.Since(w) && db.At(s, r, Authorised(row)) && now == db.clock >= row.expiresAt && row.status == Pending
      requires r == Request.Approve(registry, id, actor) || r == Request.Reject(registry, id, actor)
      requires PendingTool(registry, row).Some?
      modifies db
      ensures db.Since(w) && due.Err? && db.Raised(s, r, due.error)
      ensures due.error in {StateConflict, Unavailable}
      ensures due.error == StateConflict ==> Expired(id, row, actor, now)
    {
      ghost var w1 := db.View();
      db.Flush(s, ExpireWrites(id, row, actor, now), Failed(StateConflict));
      db.Stepped(s, w, w1);
      var ok := db.CommitWrites(s, r, w, Failed(StateConflict));
      due := Err(if ok then StateConflict else Unavailable);
    }

    /** The row is committed as expired at `now`, with its event last in the trail. */
    predicate Expired(id: ApprovalId, row: Approval, actor: UserId, now: Time)
      reads db
    {
      && id in db.tables.approvals
      && db.tables.approvals[id] == row.(status := Status.Expired, decidedAt := Some(now))
      && db.tables.audit != [] && db.tables.audit[|db.tables.audit| - 1] == [ApprovalExpired(actor, id)]
    }

    /** Status, definition and clock checks of approve. */
    method RequireDue(s: SessionId, ghost r: Request, ghost w: World, id: ApprovalId, row: Approval, approver: UserId)
      returns (due: Result<(Time, Tool), Error>)
      requires db.Since(w) && db.At(s, r, Authorised(row)) && r == Request.Approve(registry, id, approver)
      modifies db
      ensures db.Since(w)
      ensures if due.Ok? then db.At(s, r, Timed(row, due.value.0, due.value.1)) else db.Raised(s, r, due.error)
    {
      db.Others(s, w);
      ghost var w1 := db.View();
      PendingStep(w1, s, row);
      var tool := PendingTool(registry, row);
      var now := db.clock;
      if row.status != Pending || tool == None {
        db.Refuse(s, w, StateConflict);
        due := Err(StateConflict);
      } else if now >= row.expiresAt {
        due := ExpireLocked(s, r, w, id, row, approver, now);
      } else {
        db.Move(s, Timed(row, now, tool.value));
        due := Ok((now, tool.value));
        db.Stepped(s, w, w1);
      }
    }

    method RequireRequester(s: SessionId, ghost r: Request, ghost w: World, row: Approval, now: Time, tool: Tool)
      returns (ok: Result<(), Error>)
      requires db.Since(w) && db.At(s, r, Timed(row, now, tool))
      modifies db
      ensures db.Since(w)
      ensures if ok.Ok? then db.At(s, r, Permitted(row, now, tool)) else db.Raised(s, r, ok.error)
    {
      var failed := db.Interrupt(s, w);
      if failed {
        return Err(Unavailable);
      }
      ghost var w1 := db.View();
      RequesterStep(w1, s, row, now, tool);
      if HasPermission(db.View(), row.requester, tool.permission) {
        db.Move(s, Permitted(row, now, tool));
        ok := Ok(());
      } else {
        db.RaiseError(s, PermissionDenied);
        ok := Err(PermissionDenied);
      }
      db.Stepped(s, w, w1);
    }

    /** The executor's lookups of the target user and the granted role. */
    method FindTarget(s: SessionId, ghost r: Request, ghost w: World, row: Approval, now: Time, tool: Tool)
      returns (g: Result<Grant, Error>)
      requires db.Since(w) && db.At(s, r, Permitted(row, now, tool))
      modifies db
      ensures db.Since(w)
      ensures if g.Ok? then db.At(s, r, Granting(row, now, g.value)) else db.Raised(s, r, g.error)
      ensures g != Err(Unavailable) ==> TargetFound(row, tool, g)
    {
      var failed := db.Interrupt(s, w);
      if failed {
        return Err(Unavailable);
      }
      ghost var w1 := db.View();
      ExecutorStep(w1, s, row, now, tool);
      if tool.approvalExecutor == None {
        g := Err(StateConflict);
      } else if tool.approvalExecutor == Some(OtherExecutor) || row.arguments == Unparseable {
        g := Err(ToolExecution);
      } else if row.arguments.user !in db.tables.users || SUPPORT_ROLE !in db.catalog {
        g := Err(StateConflict);
      } else {
        g := Ok(Grant(row.arguments.user, SUPPORT_ROLE));
      }
      if g.Ok? {
        db.Move(s, Granting(row, now, g.value));
      } else {
        db.RaiseError(s, g.error);
      }
      db.Stepped(s, w, w1);
    }

    /** Which grant the executor comes to, and which error each missing piece gives. */
    predicate TargetFound(row: Approval, tool: Tool, g: Result<Grant, Error>)
      reads db
    {
      && (tool.approvalExecutor == None ==> g == Err(StateConflict))
      && (tool.approvalExecutor == Some(OtherExecutor) ==> g == Err(ToolExecution))
      && (tool.approvalExecutor == Some(GrantSupportAgentRole) ==>
            match row.arguments
            case Unparseable => g == Err(ToolExecution)
            case TargetUser(user) =>
              if user in db.tables.users && SUPPORT_ROLE in db.catalog then g == Ok(Grant(user, SUPPORT_ROLE))
              else g == Err(StateConflict))
    }

    /** The insert on conflict do nothing, waiting for the key, then the executed row and the events. */
    method InsertGrant(s: SessionId, ghost r: Request, ghost w: World, id: ApprovalId, approver: UserId, row: Approval,
                       now: Time, g: Grant)
      returns (result: Result<Outcome, Error>)
      requires db.Since(w) && db.At(s, r, Granting(row, now, g)) && r == Request.Approve(registry, id, approver)
      modifies db
      ensures db.Since(w)
      ensures if result.Ok? then Prepared(s, r, id, Executed, approver, result.value) else db.Raised(s, r, result.error)
    {
      var free := db.AwaitKey(s, w, g);
      if !free {
        return Err(Unavailable);
      }
      var o := FlushExecution(s, r, w, id, approver, row, now, g);
      result := Ok(o);
    }

    method FlushExecution(s: SessionId, ghost r: Request, ghost w: World, id: ApprovalId, approver: UserId,
                          row: Approval, now: Time, g: Grant)
      returns (o: Outcome)
      requires db.Since(w) && db.At(s, r, Granting(row, now, g)) && r == Request.Approve(registry, id, approver)
      requires g !in db.keyLocks
      modifies db
      ensures db.Since(w) && Prepared(s, r, id, Executed, approver, o)
    {
      ghost var w1 := db.View();
      var created := g !in db.tables.grants;
      var executed := ExecutedRow(row, approver, now);
      db.Flush(s, ExecuteWrites(id, row, approver, now, g, created), Snapshot(id, executed));
      o := Snapshot(id, executed);
      db.Stepped(s, w, w1);
    }

    /** The decided row is buffered and reported as `o`. */
    predicate Prepared(s: SessionId, r: Request, id: ApprovalId, status: Status, actor: UserId, o: Outcome)
      reads db
    {
      && o.Snapshot? && o.id == id && o.row.status == status && o.row.decidedBy == Some(actor)
      && db.At(s, r, Writing(o)) && db.calls[s].writes.approval == Some((id, o.row))
      && (status == Executed ==>
            |db.calls[s].writes.events| == 2 && db.calls[s].writes.events[0].RoleAssigned?
            && db.calls[s].writes.events[1].ApprovalExecuted? && db.calls[s].writes.events[1].id == id)
    }

    // ---------------------------------------------------------------- calls

    /** approve, up to its commit. */
    method PrepareApproval(s: SessionId, ghost r: Request, ghost w: World, id: ApprovalId, approver: UserId)
      returns (result: Result<Outcome, Error>)
      requires db.Since(w) && db.At(s, r, Begin) && r == Request.Approve(registry, id, approver)
      modifies db
      ensures db.Since(w)
      ensures if result.Ok? then Prepared(s, r, id, Executed, approver, result.value) else db.Raised(s, r, result.error)
    {
      var row := GetForUpdate(s, r, w, id);
      if row.Err? {
        return Err(row.error);
      }
      var decider := RequireDecider(s, r, w, row.value, approver);
      if decider.Err? {
        return Err(decider.error);
      }
      var due := RequireDue(s, r, w, id, row.value, approver);
      if due.Err? {
        return Err(due.error);
      }
      var (now, tool) := due.value;
      var requester := RequireRequester(s, r, w, row.value, now, tool);
      if requester.Err? {
        return Err(requester.error);
      }
      var target := FindTarget(s, r, w, row.value, now, tool);
      if target.Err? {
        return Err(target.error);
      }
      result := InsertGrant(s, r, w, id, approver, row.value, now, target.value);
    }

    /** approve: what it returns is the committed executed row; every run of it is a run of the machine. */
    method Approve(s: SessionId, id: ApprovalId, approver: UserId) returns (o: Outcome)
      requires Inv(db.View()) && s !in db.calls
      modifies db
      ensures db.Since(old(db.View())) && db.At(s, Request.Approve(registry, id, approver), Finished(o))
      ensures Decided(o, id, Executed, approver) || o.Failed?
    {
      ghost var w, r := db.View(), Request.Approve(registry, id, approver);
      db.Open(s, Request.Approve(registry, id, approver));
      var result := PrepareApproval(s, r, w, id, approver);
      o := db.Finish(s, r, w, result);
    }

    /** The call reports approval `id` decided by `actor`, as it is committed. */
    predicate Decided(o: Outcome, id: ApprovalId, status: Status, actor: UserId)
      reads db
    {
      && o.Snapshot? && o.id == id && o.row.status == status && o.row.decidedBy == Some(actor)
      && id in db.tables.approvals && db.tables.approvals[id] == o.row
      && (status == Executed ==>
            && |db.tables.audit| > 0 && |db.tables.audit[|db.tables.audit| - 1]| == 2
            && db.tables.audit[|db.tables.audit| - 1][0].RoleAssigned?
            && db.tables.audit[|db.tables.audit| - 1][1].ApprovalExecuted?
            && db.tables.audit[|db.tables.audit| - 1][1].id == id)
    }

    /** reject, up to its commit. */
    method PrepareRejection(s: SessionId, ghost r: Request, ghost w: World, id: ApprovalId, approver: UserId)
      returns (result: Result<Outcome, Error>)
      requires db.Since(w) && db.At(s, r, Begin) && r == Request.Reject(registry, id, approver)
      modifies db
      ensures db.Since(w)
      ensures if result.Ok? then Prepared(s, r, id, Rejected, approver, result.value) else db.Raised(s, r, result.error)
    {
      var locked := GetForUpdate(s, r, w, id);
      if locked.Err? {
        return Err(locked.error);
      }
      var row := locked.value;
      var decider := RequireDecider(s, r, w, row, approver);
      if decider.Err? {
        return Err(decider.error);
      }
      result := RejectDue(s, r, w, id, row, approver);
    }

    /** Status, definition and clock checks of reject, and the rejected row. */
    method RejectDue(s: SessionId, ghost r: Request, ghost w: World, id: ApprovalId, row: Approval, approver: UserId)
      returns (result: Result<Outcome, Error>)
      requires db.Since(w) && db.At(s, r, Authorised(row)) && r == Request.Reject(registry, id, approver)
      modifies db
      ensures db.Since(w)
      ensures if result.Ok? then Prepared(s, r, id, Rejected, approver, result.value) else db.Raised(s, r, result.error)
    {
      db.Others(s, w);
      ghost var w1 := db.View();
      PendingStep(w1, s, row);
      var now := db.clock;
      if row.status != Pending || PendingTool(registry, row) == None {
        db.RaiseError(s, StateConflict);
        result := Err(StateConflict);
        db.Stepped(s, w, w1);
      } else if now >= row.expiresAt {
        result := ExpireLocked(s, r, w, id, row, approver, now);
      } else {
        var rejected := row.(status := Rejected, decidedBy := Some(approver), decidedAt := Some(now));
        db.Flush(s, RejectWrites(id, row, approver, now), Snapshot(id, rejected));
        result := Ok(Snapshot(id, rejected));
        db.Stepped(s, w, w1);
      }
    }

    /** reject: what it returns is the committed rejected row. */
    method Reject(s: SessionId, id: ApprovalId, approver: UserId) returns (o: Outcome)
      requires Inv(db.View()) && s !in db.calls
      modifies db
      ensures db.Since(old(db.View())) && db.At(s, Request.Reject(registry, id, approver), Finished(o))
      ensures Decided(o, id, Rejected, approver) || o.Failed?
    {
      ghost var w, r := db.View(), Request.Reject(registry, id, approver);
      db.Open(s, Request.Reject(registry, id, approver));
      var result := PrepareRejection(s, r, w, id, approver);
      o := db.Finish(s, r, w, result);
    }

    /**
     * request_action: what it returns is the committed pending row of the drawn identifier, which expires fifteen
     * minutes after a clock reading of the call, with its event last in the trail; an unusable request gets its own
     * error, and only a usable one is asked for permission.
     */
    method RequestAction(s: SessionId, actor: UserId, tool: string, arguments: Arguments, newId: ApprovalId)
      returns (o: Outcome)
      requires Inv(db.View()) && s !in db.calls
      requires FreshIds(db.View(), Request.RequestAction(registry, actor, tool, arguments, newId))
      modifies db
      ensures db.Since(old(db.View()))
      ensures db.At(s, Request.RequestAction(registry, actor, tool, arguments, newId), Finished(o))
      ensures o == Failed(UnknownTool) <==> tool !in registry
      ensures o == Failed(NotApprovalRequired)
              <==> tool in registry && (registry[tool].risk == ReadOnly || registry[tool].approvalExecutor == None)
      ensures o == Failed(InvalidArguments)
              <==> tool in registry && registry[tool].risk == ApprovalRequired && registry[tool].approvalExecutor.Some?
                   && arguments == Unparseable
      ensures Approvable(registry, tool, arguments) && o.Failed? ==> o.error in {ToolPermissionDenied, Unavailable}
      ensures !o.Failed? ==> Pended(old(db.clock), actor, tool, arguments, newId, o)
    {
      var request := Request.RequestAction(registry, actor, tool, arguments, newId);
      ghost var w, r := db.View(), request;
      db.Open(s, request);
      ghost var w1 := db.View();
      var definition := LookupActionTool(registry, tool, arguments);
      LookupExactly(registry, tool, arguments);
      if definition.Err? {
        o := Failed(definition.error);
        db.Move(s, Finished(o));
        db.Stepped(s, w, w1);
        return;
      }
      var allowed := RequirePermission(s, r, w, actor, definition.value.permission);
      if allowed.Err? {
        o := db.Finish(s, r, w, Err(allowed.error));
        return;
      }
      o := CreateApproval(s, r, w, actor, tool, arguments, newId);
    }

    /** The permission check of request_action. */
    method RequirePermission(s: SessionId, ghost r: Request, ghost w: World, actor: UserId, permission: string)
      returns (ok: Result<(), Error>)
      requires db.Since(w) && db.At(s, r, Begin) && r.RequestAction? && r.actor == actor
      requires LookupActionTool(r.registry, r.tool, r.arguments).Ok?
      requires permission == LookupActionTool(r.registry, r.tool, r.arguments).value.permission
      modifies db
      ensures db.Since(w)
      ensures if ok.Ok? then db.At(s, r, ActionAllowed) else db.Raised(s, r, ok.error)
      ensures ok.Err? ==> ok.error in {ToolPermissionDenied, Unavailable}
    {
      var failed := db.Interrupt(s, w);
      if failed {
        return Err(Unavailable);
      }
      ghost var w1 := db.View();
      if HasPermission(db.View(), actor, permission) {
        db.Move(s, ActionAllowed);
        ok := Ok(());
      } else {
        db.RaiseError(s, ToolPermissionDenied);
        ok := Err(ToolPermissionDenied);
      }
      db.Stepped(s, w, w1);
    }

    /** The row a request would commit: pending, with nothing decided. */
    predicate Fresh(row: Approval, actor: UserId, tool: string, arguments: Arguments) {
      row == Approval(actor, tool, arguments, Pending, row.expiresAt, None, None, None)
    }

    /** The pending row and its event, not yet committed. */
    method BufferRequest(s: SessionId, ghost r: Request, ghost w: World, actor: UserId, tool: string,
                         arguments: Arguments, newId: ApprovalId)
      returns (row: Result<Approval, Error>)
      requires db.Since(w) && db.At(s, r, ActionAllowed)
      requires r == Request.RequestAction(registry, actor, tool, arguments, newId)
      modifies db
      ensures db.Since(w)
      ensures row.Err? ==> row.error == Unavailable && db.Raised(s, r, Unavailable)
      ensures row.Ok? ==>
                && db.At(s, r, Writing(Snapshot(newId, row.value)))
                && db.calls[s].writes == Writes(Some((newId, row.value)), NoGrant, None, [ApprovalRequested(actor, newId)])
                && Fresh(row.value, actor, tool, arguments) && row.value.expiresAt == db.clock + 900_000_000
    {
      var failed := db.Interrupt(s, w);
      if failed {
        return Err(Unavailable);
      }
      ghost var w1 := db.View();
      CreationStep(w1, s);
      var ws := RequestWrites(newId, actor, tool, arguments, db.clock);
      db.Flush(s, ws, Snapshot(newId, ws.approval.value.1));
      db.Stepped(s, w, w1);
      row := Ok(ws.approval.value.1);
    }

    /** The pending row and its event, and their commit. */
    method CreateApproval(s: SessionId, ghost r: Request, ghost w: World, actor: UserId, tool: string,
                          arguments: Arguments, newId: ApprovalId)
      returns (o: Outcome)
      requires db.Since(w) && db.At(s, r, ActionAllowed)
      requires r == Request.RequestAction(registry, actor, tool, arguments, newId)
      modifies db
      ensures db.Since(w) && db.At(s, r, Finished(o))
      ensures if o.Failed? then o.error == Unavailable else Pended(w.clock, actor, tool, arguments, newId, o)
    {
      var row := BufferRequest(s, r, w, actor, tool, arguments, newId);
      if row.Err? {
        o := db.Finish(s, r, w, Err(Unavailable));
        return;
      }
      ghost var w1 := db.View();
      ReachesLater(w, w1);
      o := CommitRequest(s, r, actor, tool, arguments, newId, row.value);
      ReachesOn(w, w1, db.View());
    }

    method CommitRequest(s: SessionId, ghost r: Request, actor: UserId, tool: string, arguments: Arguments,
                         newId: ApprovalId, row: Approval)
      returns (o: Outcome)
      requires Inv(db.View()) && db.At(s, r, Writing(Snapshot(newId, row))) && Fresh(row, actor, tool, arguments)
      requires row.expiresAt == db.clock + 900_000_000
      requires db.calls[s].writes == Writes(Some((newId, row)), NoGrant, None, [ApprovalRequested(actor, newId)])
      modifies db
      ensures db.Since(old(db.View())) && db.At(s, r, Finished(o))
      ensures if o.Failed? then o.error == Unavailable else Pended(old(db.clock), actor, tool, arguments, newId, o)
    {
      ghost var w := db.View();
      ReachesItself(w);
      o := db.Finish(s, r, w, Ok(Snapshot(newId, row)));
      ReachesLater(w, db.View());
    }

    /** The pending row is committed as reported, requested by a call that started at `start`. */
    predicate Pended(start: Time, actor: UserId, tool: string, arguments: Arguments, newId: ApprovalId, o: Outcome)
      reads db
    {
      && o.Snapshot? && o.id == newId && newId in db.tables.approvals && db.tables.approvals[newId] == o.row
      && Fresh(o.row, actor, tool, arguments)
      && start + 900_000_000 <= o.row.expiresAt <= db.clock + 900_000_000
      && db.tables.audit != [] && db.tables.audit[|db.tables.audit| - 1] == [ApprovalRequested(actor, newId)]
    }

    /** The select of get, without a lock. */
    method ReadRow(s: SessionId, ghost r: Request, ghost w: World, id: ApprovalId) returns (row: Result<Approval, Error>)
      requires db.Since(w) && db.At(s, r, Begin) && r == GetApproval(id)
      modifies db
      ensures db.Since(w)
      ensures if row.Ok? then db.At(s, r, RowRead(row.value)) else db.Raised(s, r, row.error)
      ensures row.Ok? ==> id in db.tables.approvals && db.tables.approvals[id] == row.value
      ensures row == Err(ApprovalNotFound) ==> id !in db.tables.approvals
      ensures row.Err? ==> row.error in {ApprovalNotFound, Unavailable}
    {
      var failed := db.Interrupt(s, w);
      if failed {
        return Err(Unavailable);
      }
      ghost var w1 := db.View();
      if id !in db.tables.approvals {
        db.RaiseError(s, ApprovalNotFound);
        row := Err(ApprovalNotFound);
      } else {
        row := Ok(db.tables.approvals[id]);
        db.Move(s, RowRead(row.value));
      }
      db.Stepped(s, w, w1);
    }

    /** The clock reading of get, in state `seen`, and the end of its session. */
    method Report(s: SessionId, ghost r: Request, ghost w: World, id: ApprovalId, row: Approval)
      returns (o: Outcome, ghost seen: World)
      requires db.Since(w) && db.At(s, r, RowRead(row)) && r == GetApproval(id)
      modifies db
      ensures Reaches(w, seen) && db.Since(seen) && db.At(s, r, Finished(o))
      ensures o == Snapshot(id, AsOf(row, seen.clock))
    {
      db.Others(s, w);
      seen := db.View();
      ReachesItself(seen);
      ReportStep(seen, s, id, row);
      var effective := row.status;
      if row.status == Pending && db.clock >= row.expiresAt {
        effective := Status.Expired;
      }
      o := Snapshot(id, row.(status := effective));
      db.Move(s, Unwinding(o));
      db.Stepped(s, seen, seen);
      db.Rollback(s, r, seen, o);
    }

    /** A pending row whose time has passed counts as expired. */
    function AsOf(row: Approval, now: Time): Approval {
      if row.status == Pending && now >= row.expiresAt then row.(status := Status.Expired) else row
    }

    /** In some state after `w` the row was read, in a later one the clock, and nothing else went into the report. */
    ghost predicate Observed(w: World, id: ApprovalId, o: Outcome, w': World) {
      exists read, timed ::
        && Reaches(w, read) && Reaches(read, timed) && Reaches(timed, w')
        && id in read.tables.approvals && o == Snapshot(id, AsOf(read.tables.approvals[id], timed.clock))
    }

    /**
     * get: reports the row as committed when it read it, as expired if its time has passed when it reads the clock
     * after that.
     */
    method Get(s: SessionId, id: ApprovalId) returns (o: Outcome)
      requires Inv(db.View()) && s !in db.calls
      modifies db
      ensures db.Since(old(db.View())) && db.At(s, GetApproval(id), Finished(o))
      ensures Observed(old(db.View()), id, o, db.View()) || o in {Failed(ApprovalNotFound), Failed(Unavailable)}
    {
      ghost var w, r := db.View(), GetApproval(id);
      db.Open(s, GetApproval(id));
      var row := ReadRow(s, r, w, id);
      if row.Err? {
        o := db.Finish(s, r, w, Err(row.error));
        return;
      }
      ghost var read := db.View();
      ReachesItself(read);
      ghost var timed: World;
      o, timed := Report(s, r, read, id, row.value);
      ReachesOn(w, read, timed);
      ReachesOn(w, timed, db.View());
    }
  }
}
