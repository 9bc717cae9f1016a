/** When decisions were timed and whose authority they were read under, over whole runs. */
module ApprovalAuthority {
  import opened Wrappers
  import opened ApprovalTypes
  import opened ApprovalMachine
  import opened AuditTrail
  import opened ApprovalInvariant
  import opened ApprovalTheorems

  /** The next statement of session `s`, which holds `held`, reads that `user` has `permission`. */
  predicate FindsPermission(w: World, s: SessionId, held: Option<ApprovalId>, user: UserId, permission: string) {
    && s in w.calls && w.calls[s].held == held && HasPermission(w, user, permission)
    && var r := w.calls[s].request;
    match w.calls[s].phase
    case Begin =>
      && r.RequestAction? && r.tool in r.registry
      && user == r.actor && permission == r.registry[r.tool].permission
    case Locked(_) => DecidedRow(r).Some? && user == r.approver && permission == DECIDE
    case Timed(row, _, tool) => user == row.requester && permission == tool.permission
    case _ => false
  }

  /** The next statement of session `s`, which holds `held`, reads the clock as `now`. */
  predicate FindsTime(w: World, s: SessionId, held: Option<ApprovalId>, now: Time) {
    && s in w.calls && w.calls[s].held == held && w.clock == now
    && (w.calls[s].phase.ActionAllowed? || w.calls[s].phase.Authorised?)
  }

  /** Step `k` of the run is that reading. */
  predicate ReadsAt(ws: seq<World>, k: nat, s: SessionId, held: Option<ApprovalId>, user: UserId, permission: string)
    requires k + 1 < |ws|
  {
    FindsPermission(ws[k], s, held, user, permission) && ws[k + 1] == NextStep(ws[k], s)
  }

  predicate ReadsClockAt(ws: seq<World>, k: nat, s: SessionId, held: Option<ApprovalId>, now: Time)
    requires k + 1 < |ws|
  {
    FindsTime(ws[k], s, held, now) && ws[k + 1] == NextStep(ws[k], s)
  }

  ghost predicate Witnessed(ws: seq<World>, n: nat, s: SessionId, held: Option<ApprovalId>, user: UserId,
                            permission: string)
    requires n < |ws|
  {
    exists k: nat | k < n :: ReadsAt(ws, k, s, held, user, permission)
  }

  ghost predicate Clocked(ws: seq<World>, n: nat, s: SessionId, held: Option<ApprovalId>, now: Time)
    requires n < |ws|
  {
    exists k: nat | k < n :: ReadsClockAt(ws, k, s, held, now)
  }

  /** The decider held approval:decide, read under the row lock. */
  ghost predicate DeciderWitnessed(ws: seq<World>, n: nat, s: SessionId, r: Request)
    requires n < |ws| && DecidedRow(r).Some?
  {
    Witnessed(ws, n, s, DecidedRow(r), r.approver, DECIDE)
  }

  /** The requester held the tool's permission, read under the row lock of the approving session. */
  ghost predicate RequesterWitnessed(ws: seq<World>, n: nat, s: SessionId, r: Request, row: Approval)
    requires n < |ws| && r.Approve?
  {
    row.tool in r.registry && Witnessed(ws, n, s, Some(r.id), row.requester, r.registry[row.tool].permission)
  }

  /** Who a decided row and the event that ends it name. */
  predicate NamesDecider(r: Request, row: Approval, ending: AuditEvent) {
    && DecidedRow(r).Some? && ending.actor == r.approver
    && (row.status == Executed ==> r.Approve? && row.decidedBy == Some(r.approver))
    && (row.status == Rejected ==> r.Reject? && row.decidedBy == Some(r.approver))
  }

  /**
   * A decided row was decided by session `s`, on readings made while it held the row lock; the user whose
   * permission was read is the one the row and its ending event name.
   */
  ghost predicate DecisionWitnessed(ws: seq<World>, n: nat, s: SessionId, r: Request, row: Approval, ending: AuditEvent)
    requires n < |ws|
  {
    && NamesDecider(r, row, ending) && row.decidedAt.Some?
    && DeciderWitnessed(ws, n, s, r)
    && Clocked(ws, n, s, DecidedRow(r), row.decidedAt.value)
    && (row.status == Executed ==> RequesterWitnessed(ws, n, s, r, row))
  }

  /** A request was made by session `s` holding the tool's permission, and expires TTL after its clock reading. */
  ghost predicate RequestWitnessed(ws: seq<World>, n: nat, s: SessionId, r: Request, row: Approval)
    requires n < |ws|
  {
    && r.RequestAction? && row.tool in r.registry && row.requester == r.actor && row.tool == r.tool
    && Witnessed(ws, n, s, None, row.requester, r.registry[row.tool].permission)
    && Clocked(ws, n, s, None, row.expiresAt - TTL)
  }

  function LastEvent(ws: Writes): AuditEvent
    requires ws.events != []
  {
    ws.events[|ws.events| - 1]
  }

  ghost predicate PhaseWitnessed(ws: seq<World>, n: nat, s: SessionId)
    requires n < |ws| && s in ws[n].calls
  {
    var c := ws[n].calls[s];
    match c.phase
    case ActionAllowed =>
      c.request.RequestAction? && c.request.tool in c.request.registry
      && Witnessed(ws, n, s, None, c.request.actor, c.request.registry[c.request.tool].permission)
    case Authorised(_) => DecidedRow(c.request).Some? && DeciderWitnessed(ws, n, s, c.request)
    case Timed(_, now, _) =>
      DecidedRow(c.request).Some? && DeciderWitnessed(ws, n, s, c.request)
            && Clocked(ws, n, s, DecidedRow(c.request), now)
    case Permitted(row, now, _) =>
      c.request.Approve? && DeciderWitnessed(ws, n, s, c.request) && RequesterWitnessed(ws, n, s, c.request, row)
      && Clocked(ws, n, s, DecidedRow(c.request), now)
    case Granting(row, now, _) =>
      c.request.Approve? && DeciderWitnessed(ws, n, s, c.request) && RequesterWitnessed(ws, n, s, c.request, row)
      && Clocked(ws, n, s, DecidedRow(c.request), now)
    case Writing(_) =>
      c.writes.approval.Some? ==>
        var row := c.writes.approval.value.1;
        if row.status == Pending then RequestWitnessed(ws, n, s, c.request, row)
        else c.writes.events != [] && DecisionWitnessed(ws, n, s, c.request, row, LastEvent(c.writes))
    case _ => true
  }

  ghost predicate RequestedBy(ws: seq<World>, n: nat, id: ApprovalId, row: Approval, s: SessionId)
    requires n < |ws|
  {
    s in ws[n].calls && NewApproval(ws[n].calls[s].request) == Some(id)
          && RequestWitnessed(ws, n, s, ws[n].calls[s].request, row)
  }

  ghost predicate DecidedBy(ws: seq<World>, n: nat, id: ApprovalId, row: Approval, ending: AuditEvent, s: SessionId)
    requires n < |ws|
  {
    && s in ws[n].calls && DecidedRow(ws[n].calls[s].request) == Some(id)
    && DecisionWitnessed(ws, n, s, ws[n].calls[s].request, row, ending)
  }

  // ---------------------------------------------------------------- witnesses persist

  lemma WitnessedLater(ws: seq<World>, n: nat, s: SessionId, held: Option<ApprovalId>, user: UserId, permission: string)
    requires n + 1 < |ws| && Witnessed(ws, n, s, held, user, permission)
    ensures Witnessed(ws, n + 1, s, held, user, permission)
  {
    var k: nat :| k < n && ReadsAt(ws, k, s, held, user, permission);
    assert k < n + 1;
  }

  lemma ClockedLater(ws: seq<World>, n: nat, s: SessionId, held: Option<ApprovalId>, now: Time)
    requires n + 1 < |ws| && Clocked(ws, n, s, held, now)
    ensures Clocked(ws, n + 1, s, held, now)
  {
    var k: nat :| k < n && ReadsClockAt(ws, k, s, held, now);
    assert k < n + 1;
  }

  lemma RequestLater(ws: seq<World>, n: nat, s: SessionId, r: Request, row: Approval)
    requires n + 1 < |ws| && RequestWitnessed(ws, n, s, r, row)
    ensures RequestWitnessed(ws, n + 1, s, r, row)
  {
    WitnessedLater(ws, n, s, None, row.requester, r.registry[row.tool].permission);
    ClockedLater(ws, n, s, None, row.expiresAt - TTL);
  }

  lemma DecisionLater(ws: seq<World>, n: nat, s: SessionId, r: Request, row: Approval, ending: AuditEvent)
    requires n + 1 < |ws| && DecisionWitnessed(ws, n, s, r, row, ending)
    ensures DecisionWitnessed(ws, n + 1, s, r, row, ending)
  {
    WitnessedLater(ws, n, s, DecidedRow(r), r.approver, DECIDE);
    ClockedLater(ws, n, s, DecidedRow(r), row.decidedAt.value);
    if row.status == Executed {
      WitnessedLater(ws, n, s, Some(r.id), row.requester, r.registry[row.tool].permission);
    }
  }

  lemma PhaseLater(ws: seq<World>, n: nat, s: SessionId)
    requires n + 1 < |ws| && s in ws[n].calls && s in ws[n + 1].calls && ws[n + 1].calls[s] == ws[n].calls[s]
    requires PhaseWitnessed(ws, n, s)
    ensures PhaseWitnessed(ws, n + 1, s)
  {
    var c := ws[n].calls[s];
    match c.phase
    case ActionAllowed => WitnessedLater(ws, n, s, None, c.request.actor,
          c.request.registry[c.request.tool].permission);
    case Authorised(_) => WitnessedLater(ws, n, s, DecidedRow(c.request), c.request.approver, DECIDE);
    case Timed(_, now, _) =>
      WitnessedLater(ws, n, s, DecidedRow(c.request), c.request.approver, DECIDE);
      ClockedLater(ws, n, s, DecidedRow(c.request), now);
    case Permitted(row, now, _) => ReadingsLater(ws, n, s, c.request, row, now);
    case Granting(row, now, _) => ReadingsLater(ws, n, s, c.request, row, now);
    case Writing(_) =>
      if c.writes.approval.Some? {
        var row := c.writes.approval.value.1;
        if row.status == Pending {
          RequestLater(ws, n, s, c.request, row);
        } else {
          DecisionLater(ws, n, s, c.request, row, LastEvent(c.writes));
        }
      }
    case _ =>
  }

  /** The three readings an approve call makes under its row lock. */
  ghost predicate Readings(ws: seq<World>, n: nat, s: SessionId, r: Request, row: Approval, now: Time)
    requires n < |ws|
  {
    r.Approve? && DeciderWitnessed(ws, n, s, r) && RequesterWitnessed(ws, n, s, r, row)
          && Clocked(ws, n, s, DecidedRow(r), now)
  }

  lemma ReadingsLater(ws: seq<World>, n: nat, s: SessionId, r: Request, row: Approval, now: Time)
    requires n + 1 < |ws| && Readings(ws, n, s, r, row, now)
    ensures Readings(ws, n + 1, s, r, row, now)
  {
    WitnessedLater(ws, n, s, DecidedRow(r), r.approver, DECIDE);
    WitnessedLater(ws, n, s, Some(r.id), row.requester, r.registry[row.tool].permission);
    ClockedLater(ws, n, s, DecidedRow(r), now);
  }

  lemma ReadNow(ws: seq<World>, n: nat, s: SessionId, held: Option<ApprovalId>, user: UserId, permission: string)
    requires n + 1 < |ws| && FindsPermission(ws[n], s, held, user, permission) && ws[n + 1] == NextStep(ws[n], s)
    ensures Witnessed(ws, n + 1, s, held, user, permission)
  {
    assert ReadsAt(ws, n, s, held, user, permission);
  }

  lemma ClockNow(ws: seq<World>, n: nat, s: SessionId, held: Option<ApprovalId>, now: Time)
    requires n + 1 < |ws| && FindsTime(ws[n], s, held, now) && ws[n + 1] == NextStep(ws[n], s)
    ensures Clocked(ws, n + 1, s, held, now)
  {
    assert ReadsClockAt(ws, n, s, held, now);
  }

  // ---------------------------------------------------------------- each step adds its reading

  /** One session advances between states `n` and `n + 1`. */
  ghost predicate Moves(ws: seq<World>, n: nat, s: SessionId) {
    && n + 1 < |ws| && Running(ws[n], s)
    && CallOk(ws[n].tables, ws[n].clock, ws[n].calls[s])
    && s in ws[n + 1].calls && ws[n + 1] == NextStep(ws[n], s) && PhaseWitnessed(ws, n, s)
  }

  /** What the first step leaves: only a request_action call has read a permission by then. */
  predicate FirstPhase(w: World, c: Call, c': Call) {
    && c'.request == c.request
    && (c'.phase.ActionAllowed? ==>
          c.request.RequestAction? && c.request.tool in c.request.registry
          && HasPermission(w, c.request.actor, c.request.registry[c.request.tool].permission))
    && !c'.phase.Authorised? && !c'.phase.Timed? && !c'.phase.Permitted? && !c'.phase.Granting?
    && (c'.phase.Writing? ==> c'.writes.approval == None)
  }

  lemma FirstStepPhase(w: World, s: SessionId)
    requires s in w.calls
    ensures s in FirstStep(w, s).calls && FirstPhase(w, w.calls[s], FirstStep(w, s).calls[s])
  {
    if w.calls[s].request.RequestAction? {
      RequestPhase(w, s);
    } else if w.calls[s].request.CreateUser? {
    } else {
    }
  }

  lemma RequestPhase(w: World, s: SessionId)
    requires s in w.calls && w.calls[s].request.RequestAction?
    ensures s in FirstStep(w, s).calls && FirstPhase(w, w.calls[s], FirstStep(w, s).calls[s])
  {
  }

  lemma FirstStepWitnessed(ws: seq<World>, n: nat, s: SessionId)
    requires Moves(ws, n, s) && ws[n].calls[s].phase == Begin
    ensures PhaseWitnessed(ws, n + 1, s)
  {
    FirstStepPhase(ws[n], s);
    var c' := ws[n + 1].calls[s];
    if c'.phase.ActionAllowed? {
      ReadNow(ws, n, s, None, c'.request.actor, c'.request.registry[c'.request.tool].permission);
    }
  }

  lemma CreateWitnessed(ws: seq<World>, n: nat, s: SessionId)
    requires Moves(ws, n, s) && ws[n].calls[s].phase == ActionAllowed
    ensures PhaseWitnessed(ws, n + 1, s)
  {
    var r := ws[n].calls[s].request;
    WitnessedLater(ws, n, s, None, r.actor, r.registry[r.tool].permission);
    ClockNow(ws, n, s, None, ws[n].clock);
    assert ws[n + 1].calls[s].writes.approval.value.1.expiresAt - TTL == ws[n].clock;
  }

  lemma DeciderStepWitnessed(ws: seq<World>, n: nat, s: SessionId, row: Approval)
    requires Moves(ws, n, s) && ws[n].calls[s].phase == Locked(row)
    ensures PhaseWitnessed(ws, n + 1, s)
  {
    var r := ws[n].calls[s].request;
    if HasPermission(ws[n], r.approver, DECIDE) {
      ReadNow(ws, n, s, DecidedRow(r), r.approver, DECIDE);
    }
  }

  /** What the status, definition and clock checks leave: a refusal, a clock reading, or the row closed at it. */
  predicate PendingEnds(w: World, c: Call, c': Call) {
    && c'.request == c.request
    && (c'.phase.Unwinding? || (c'.phase.Timed? && c'.phase.now == w.clock)
        || (c'.phase.Writing? && c'.writes.approval.Some? && |c'.writes.events| == 1
            && c'.writes.approval.value.1.status in {Expired, Rejected}
            && NamesDecider(c'.request, c'.writes.approval.value.1, c'.writes.events[0])
            && c'.writes.approval.value.1.decidedAt == Some(w.clock)))
  }

  lemma PendingPhase(w: World, s: SessionId, row: Approval)
    requires s in w.calls && DecidedRow(w.calls[s].request).Some?
    ensures PendingEnds(w, w.calls[s], CheckPending(w, s, row).calls[s])
  {
    if w.calls[s].request.Approve? {
      PendingApprove(w, s, row);
    } else {
      PendingReject(w, s, row);
    }
  }

  lemma PendingApprove(w: World, s: SessionId, row: Approval)
    requires s in w.calls && w.calls[s].request.Approve?
    ensures PendingEnds(w, w.calls[s], CheckPending(w, s, row).calls[s])
  {
  }

  lemma PendingReject(w: World, s: SessionId, row: Approval)
    requires s in w.calls && w.calls[s].request.Reject?
    ensures PendingEnds(w, w.calls[s], CheckPending(w, s, row).calls[s])
  {
  }

  lemma PendingStepWitnessed(ws: seq<World>, n: nat, s: SessionId, row: Approval)
    requires Moves(ws, n, s) && ws[n].calls[s].phase == Authorised(row)
    ensures PhaseWitnessed(ws, n + 1, s)
  {
    var r := ws[n].calls[s].request;
    PendingPhase(ws[n], s, row);
    WitnessedLater(ws, n, s, DecidedRow(r), r.approver, DECIDE);
    ClockNow(ws, n, s, DecidedRow(r), ws[n].clock);
  }

  lemma RequesterStepWitnessed(ws: seq<World>, n: nat, s: SessionId, row: Approval, now: Time, tool: Tool)
    requires Moves(ws, n, s) && ws[n].calls[s].phase == Timed(row, now, tool)
    ensures PhaseWitnessed(ws, n + 1, s)
  {
    var r := ws[n].calls[s].request;
    WitnessedLater(ws, n, s, DecidedRow(r), r.approver, DECIDE);
    ClockedLater(ws, n, s, DecidedRow(r), now);
    assert row.tool in r.registry && r.registry[row.tool] == tool;
    if HasPermission(ws[n], row.requester, tool.permission) {
      ReadNow(ws, n, s, Some(r.id), row.requester, tool.permission);
    }
  }

  lemma ExecutorPhase(w: World, s: SessionId, row: Approval, now: Time, tool: Tool)
    requires s in w.calls
    ensures
      var c' := RunExecutor(w, s, row, now, tool).calls[s];
      && c'.request == w.calls[s].request
      && (c'.phase.Unwinding? || (c'.phase.Granting? && c'.phase.row == row && c'.phase.now == now))
  {
  }

  lemma ExecutorStepWitnessed(ws: seq<World>, n: nat, s: SessionId, row: Approval, now: Time, tool: Tool)
    requires Moves(ws, n, s) && ws[n].calls[s].phase == Permitted(row, now, tool)
    ensures PhaseWitnessed(ws, n + 1, s)
  {
    ExecutorPhase(ws[n], s, row, now, tool);
    ReadingsLater(ws, n, s, ws[n].calls[s].request, row, now);
  }

  lemma GrantPhase(w: World, s: SessionId, row: Approval, now: Time, g: Grant)
    requires s in w.calls && w.calls[s].request.Approve?
    ensures
      var c' := InsertApprovedGrant(w, s, row, now, g).calls[s];
      && c'.request == w.calls[s].request && c'.phase.Writing?
      && c'.writes.approval == Some((c'.request.id, ExecutedRow(row, c'.request.approver, now)))
      && |c'.writes.events| == 2 && LastEvent(c'.writes).actor == c'.request.approver
  {
  }

  lemma GrantStepWitnessed(ws: seq<World>, n: nat, s: SessionId, row: Approval, now: Time, g: Grant)
    requires Moves(ws, n, s) && ws[n].calls[s].phase == Granting(row, now, g)
    ensures PhaseWitnessed(ws, n + 1, s)
  {
    var r := ws[n].calls[s].request;
    GrantPhase(ws[n], s, row, now, g);
    ReadingsLater(ws, n, s, r, row, now);
    ReadingsWitness(ws, n + 1, s, r, row, now, LastEvent(ws[n + 1].calls[s].writes));
  }

  lemma ReadingsWitness(ws: seq<World>, n: nat, s: SessionId, r: Request, row: Approval, now: Time, ending: AuditEvent)
    requires n < |ws| && Readings(ws, n, s, r, row, now) && ending.actor == r.approver
    ensures DecisionWitnessed(ws, n, s, r, ExecutedRow(row, r.approver, now), ending)
  {
  }

  lemma RolePhase(w: World, s: SessionId, g: Grant, seen: Option<TupleId>)
    requires s in w.calls && (w.calls[s].request.AssignRole? || w.calls[s].request.RemoveRole?)
    ensures
      var c', c'' := ChangeRole(w, s, g).calls[s], DeleteSeen(w, s, g, seen).calls[s];
      && (c'.phase.Scanned? || (c'.phase.Writing? && c'.writes.approval == None))
      && (w.calls[s].request.RemoveRole? ==> c''.phase.Writing? && c''.writes.approval == None)
  {
  }

  lemma RoleStepWitnessed(ws: seq<World>, n: nat, s: SessionId)
    requires Moves(ws, n, s) && (ws[n].calls[s].phase.RoleTarget? || ws[n].calls[s].phase.Scanned?)
    ensures PhaseWitnessed(ws, n + 1, s)
  {
    var c := ws[n].calls[s];
    RolePhase(ws[n], s, c.phase.grant, if c.phase.Scanned? then c.phase.seen else None);
  }

  lemma EndingWitnessed(ws: seq<World>, n: nat, s: SessionId)
    requires Moves(ws, n, s)
    requires ws[n].calls[s].phase.RowRead? || ws[n].calls[s].phase.Writing? || ws[n].calls[s].phase.Unwinding?
    ensures PhaseWitnessed(ws, n + 1, s)
  {
    assert ws[n + 1].calls[s].phase.Unwinding? || ws[n + 1].calls[s].phase.Finished?;
  }

  lemma MoveWitnessed(ws: seq<World>, n: nat, s: SessionId)
    requires Moves(ws, n, s)
    ensures PhaseWitnessed(ws, n + 1, s)
  {
    match ws[n].calls[s].phase
    case Begin => FirstStepWitnessed(ws, n, s);
    case ActionAllowed => CreateWitnessed(ws, n, s);
    case Locked(row) => DeciderStepWitnessed(ws, n, s, row);
    case Authorised(row) => PendingStepWitnessed(ws, n, s, row);
    case Timed(row, now, tool) => RequesterStepWitnessed(ws, n, s, row, now, tool);
    case Permitted(row, now, tool) => ExecutorStepWitnessed(ws, n, s, row, now, tool);
    case Granting(row, now, g) => GrantStepWitnessed(ws, n, s, row, now, g);
    case RoleTarget(_) => RoleStepWitnessed(ws, n, s);
    case Scanned(_, _) => RoleStepWitnessed(ws, n, s);
    case _ => EndingWitnessed(ws, n, s);
  }

  // ---------------------------------------------------------------- whole runs

  /** From `w` to `w'` only the call of `s` changed, and it is still the same request. */
  predicate OnlyMine(w: World, w': World, s: SessionId)
    requires s in w.calls
  {
    s in w'.calls && w'.calls == w.calls[s := w'.calls[s]] && w'.calls[s].request == w.calls[s].request
  }

  lemma StepCalls(w: World, s: SessionId)
    requires s in w.calls
    ensures OnlyMine(w, NextStep(w, s), s)
  {
    match w.calls[s].phase
    case Begin => FirstStepCalls(w, s);
    case Authorised(row) => CheckPendingCalls(w, s, row);
    case Writing(_) =>
    case Unwinding(_) =>
    case _ => MiddleStepCalls(w, s);
  }

  lemma FirstStepCalls(w: World, s: SessionId)
    requires s in w.calls
    ensures OnlyMine(w, FirstStep(w, s), s)
  {
    if w.calls[s].request.CreateUser? {
      BufferedCalls(w, s, CreateUserWrites(w.calls[s].request.newUser), UserCreated);
    }
  }

  lemma BufferedCalls(w: World, s: SessionId, ws: Writes, o: Outcome)
    requires s in w.calls
    ensures OnlyMine(w, Buffer(w, s, ws, o), s)
  {
  }

  lemma CheckPendingCalls(w: World, s: SessionId, row: Approval)
    requires s in w.calls
    ensures OnlyMine(w, CheckPending(w, s, row), s)
  {
    match w.calls[s].request
    case Approve(_, _, _) =>
    case Reject(_, _, _) =>
    case _ =>
  }

  lemma MiddleStepCalls(w: World, s: SessionId)
    requires s in w.calls && !w.calls[s].phase.Begin? && !w.calls[s].phase.Authorised?
    requires !w.calls[s].phase.Writing? && !w.calls[s].phase.Unwinding?
    ensures OnlyMine(w, NextStep(w, s), s)
  {
    match w.calls[s].phase
    case ActionAllowed =>
    case Granting(_, _, _) =>
    case RoleTarget(_) =>
    case Scanned(_, _) =>
    case _ => CheckStepCalls(w, s);
  }

  lemma CheckStepCalls(w: World, s: SessionId)
    requires s in w.calls
    requires
      var p := w.calls[s].phase;
      p.RowRead? || p.Locked? || p.Timed? || p.Permitted? || p.Finished?
    ensures OnlyMine(w, NextStep(w, s), s)
  {
    match w.calls[s].phase
    case RowRead(_) =>
    case Locked(_) =>
    case Timed(_, _, _) =>
    case Permitted(_, _, _) =>
    case Finished(_) =>
  }

  /** Calls stay, keep their request, and change only by their own action. */
  lemma ApplyCalls(w: World, a: Action, s: SessionId)
    requires Allowed(w, a) && s in w.calls
    ensures s in Apply(w, a).calls && Apply(w, a).calls[s].request == w.calls[s].request
    ensures (a.Tick? || a.session != s) ==> Apply(w, a).calls[s] == w.calls[s]
  {
    if a.Advance? {
      StepCalls(w, a.session);
    }
  }

  /** A call that was not there before is at its beginning. */
  lemma NewcomerBegins(w: World, a: Action, t: SessionId)
    requires Allowed(w, a) && t !in w.calls && t in Apply(w, a).calls
    ensures Apply(w, a).calls[t].phase.Begin?
  {
    if a.Advance? {
      StepCalls(w, a.session);
    }
  }

  /** Calls stay, with their requests. */
  predicate CallsPersist(w: World, w': World) {
    forall s :: s in w.calls ==> s in w'.calls && w'.calls[s].request == w.calls[s].request
  }

  lemma ApplyPersists(w: World, a: Action)
    requires Allowed(w, a)
    ensures CallsPersist(w, Apply(w, a))
  {
    forall s | s in w.calls ensures s in Apply(w, a).calls && Apply(w, a).calls[s].request == w.calls[s].request {
      ApplyCalls(w, a, s);
    }
  }

  lemma CallsWitnessed(ws: seq<World>, n: nat, a: Action, s: SessionId)
    requires n + 1 < |ws| && Inv(ws[n]) && Allowed(ws[n], a) && ws[n + 1] == Apply(ws[n], a)
    requires AllWitnessed(ws, n) && s in ws[n + 1].calls
    ensures PhaseWitnessed(ws, n + 1, s)
  {
    if s in ws[n].calls {
      ApplyCalls(ws[n], a, s);
      if a.Tick? || a.session != s {
        PhaseLater(ws, n, s);
      } else if a.Advance? {
        assert CallOk(ws[n].tables, ws[n].clock, ws[n].calls[s]);
        MoveWitnessed(ws, n, s);
      }
    } else if !a.Open? || a.session != s {
      if a.Advance? {
        StepCalls(ws[n], a.session);
      }
      assert false;
    }
  }

  lemma RequestedByLater(ws: seq<World>, n: nat, id: ApprovalId, row: Approval, s: SessionId)
    requires n + 1 < |ws| && CallsPersist(ws[n], ws[n + 1]) && RequestedBy(ws, n, id, row, s)
    ensures RequestedBy(ws, n + 1, id, row, s)
  {
    RequestLater(ws, n, s, ws[n].calls[s].request, row);
  }

  lemma DecidedByLater(ws: seq<World>, n: nat, id: ApprovalId, row: Approval, ending: AuditEvent, s: SessionId)
    requires n + 1 < |ws| && CallsPersist(ws[n], ws[n + 1]) && DecidedBy(ws, n, id, row, ending, s)
    ensures DecidedBy(ws, n + 1, id, row, ending, s)
  {
    DecisionLater(ws, n, s, ws[n].calls[s].request, row, ending);
  }

  /** Some session requested this row. */
  ghost predicate Requested(ws: seq<World>, n: nat, id: ApprovalId, row: Approval)
    requires n < |ws|
  {
    exists s :: RequestedBy(ws, n, id, row, s)
  }

  /** Some session decided this row and committed the event that ends its trail. */
  ghost predicate Decided(ws: seq<World>, n: nat, id: ApprovalId, row: Approval, trail: seq<AuditEvent>)
    requires n < |ws|
  {
    |trail| == 2 && exists s :: DecidedBy(ws, n, id, row, trail[1], s)
  }

  /** The session behind a row's creation and the session behind its decision and the event that ends its trail. */
  ghost predicate RowWitnessed(ws: seq<World>, n: nat, id: ApprovalId)
    requires n < |ws| && id in ws[n].tables.approvals
  {
    var row := ws[n].tables.approvals[id];
    Requested(ws, n, id, row) && (row.status != Pending ==> Decided(ws, n, id, row, History(ws[n].tables.audit, id)))
  }

  ghost predicate AllWitnessed(ws: seq<World>, n: nat)
    requires n < |ws|
  {
    && (forall s :: s in ws[n].calls ==> PhaseWitnessed(ws, n, s))
    && (forall id :: id in ws[n].tables.approvals ==> RowWitnessed(ws, n, id))
  }

  lemma RequestedLater(ws: seq<World>, n: nat, id: ApprovalId, row: Approval)
    requires n + 1 < |ws| && CallsPersist(ws[n], ws[n + 1]) && Requested(ws, n, id, row)
    ensures Requested(ws, n + 1, id, row)
  {
    var s :| RequestedBy(ws, n, id, row, s);
    RequestedByLater(ws, n, id, row, s);
  }

  lemma DecidedLater(ws: seq<World>, n: nat, id: ApprovalId, row: Approval, trail: seq<AuditEvent>)
    requires n + 1 < |ws| && CallsPersist(ws[n], ws[n + 1]) && Decided(ws, n, id, row, trail)
    ensures Decided(ws, n + 1, id, row, trail)
  {
    var s :| DecidedBy(ws, n, id, row, trail[1], s);
    DecidedByLater(ws, n, id, row, trail[1], s);
  }

  lemma RowLater(ws: seq<World>, n: nat, id: ApprovalId)
    requires n + 1 < |ws| && CallsPersist(ws[n], ws[n + 1])
    requires id in ws[n].tables.approvals && id in ws[n + 1].tables.approvals
    requires ws[n + 1].tables.approvals[id] == ws[n].tables.approvals[id] && RowWitnessed(ws, n, id)
    requires History(ws[n + 1].tables.audit, id) == History(ws[n].tables.audit, id)
    ensures RowWitnessed(ws, n + 1, id)
  {
    var row := ws[n].tables.approvals[id];
    RequestedLater(ws, n, id, row);
    if row.status != Pending {
      DecidedLater(ws, n, id, row, History(ws[n].tables.audit, id));
    }
  }

  lemma CommittedRow(w: World, a: Action)
    requires Inv(w) && Allowed(w, a) && Commits(w, a) && w.calls[a.session].writes.approval.Some?
    ensures
      var (id, row) := w.calls[a.session].writes.approval.value;
      && id in Apply(w, a).tables.approvals && Apply(w, a).tables.approvals[id] == row
      && (if row.status == Pending then NewApproval(w.calls[a.session].request) == Some(id)
          else DecidedRow(w.calls[a.session].request) == Some(id)
               && id in w.tables.approvals && SameTerms(w.tables.approvals[id], row))
  {
    StepTables(w, a);
    assert CallOk(w.tables, w.clock, w.calls[a.session]);
  }

  /** The trail of a row this step decides ends with the last event the step commits. */
  lemma CommittedEnding(t: Tables, ws: Writes, id: ApprovalId)
    requires TablesOk(t) && Sound(t, ws) && ws.approval.Some? && ws.approval.value.0 == id
    requires ws.approval.value.1.status != Pending
    ensures ws.events != [] && |History(Install(t, ws).audit, id)| == 2
    ensures History(Install(t, ws).audit, id)[1] == LastEvent(ws)
  {
    assert Lifecycle(t, id);
    HistoryOfInstall(t, ws, id);
    AboutShort(ws.events, id);
  }

  /** A transaction about other rows adds nothing to this trail. */
  lemma TrailUntouched(t: Tables, ws: Writes, id: ApprovalId)
    requires Sound(t, ws) && (ws.approval.Some? ==> ws.approval.value.0 != id)
    ensures History(Install(t, ws).audit, id) == History(t.audit, id)
  {
    HistoryOfInstall(t, ws, id);
    AboutShort(ws.events, id);
  }

  lemma RequestedRowWitnessed(ws: seq<World>, n: nat, s: SessionId, id: ApprovalId, row: Approval)
    requires n + 1 < |ws| && CallsPersist(ws[n], ws[n + 1]) && s in ws[n].calls && ws[n].calls[s].phase.Writing?
    requires ws[n].calls[s].writes.approval == Some((id, row)) && PhaseWitnessed(ws, n, s)
    requires id in ws[n + 1].tables.approvals && ws[n + 1].tables.approvals[id] == row
    requires row.status == Pending && NewApproval(ws[n].calls[s].request) == Some(id)
    ensures RowWitnessed(ws, n + 1, id)
  {
    assert RequestedBy(ws, n, id, row, s);
    RequestedLater(ws, n, id, row);
  }

  /** The trail of the row is its request and the last event of this transaction. */
  predicate EndsWith(t: Tables, ws: Writes, id: ApprovalId) {
    ws.events != [] && |History(t.audit, id)| == 2 && History(t.audit, id)[1] == LastEvent(ws)
  }

  lemma DecidedRowWitnessed(ws: seq<World>, n: nat, s: SessionId, id: ApprovalId, row: Approval)
    requires n + 1 < |ws| && CallsPersist(ws[n], ws[n + 1]) && s in ws[n].calls && ws[n].calls[s].phase.Writing?
    requires ws[n].calls[s].writes.approval == Some((id, row)) && PhaseWitnessed(ws, n, s)
    requires id in ws[n + 1].tables.approvals && ws[n + 1].tables.approvals[id] == row
    requires row.status != Pending && DecidedRow(ws[n].calls[s].request) == Some(id) && id in ws[n].tables.approvals
    requires SameTerms(ws[n].tables.approvals[id], row) && RowWitnessed(ws, n, id)
    requires EndsWith(ws[n + 1].tables, ws[n].calls[s].writes, id)
    ensures RowWitnessed(ws, n + 1, id)
  {
    var trail := History(ws[n + 1].tables.audit, id);
    assert DecidedBy(ws, n, id, row, trail[1], s);
    DecidedLater(ws, n, id, row, trail);
    RequestedSameTerms(ws, n, id, ws[n].tables.approvals[id], row);
    RequestedLater(ws, n, id, row);
  }

  /** The committing session is the witness of the row it writes. */
  lemma CommittedRowWitnessed(ws: seq<World>, n: nat, s: SessionId, id: ApprovalId, row: Approval)
    requires n + 1 < |ws| && CallsPersist(ws[n], ws[n + 1]) && s in ws[n].calls && ws[n].calls[s].phase.Writing?
    requires ws[n].calls[s].writes.approval == Some((id, row)) && PhaseWitnessed(ws, n, s)
    requires id in ws[n + 1].tables.approvals && ws[n + 1].tables.approvals[id] == row
    requires row.status == Pending ==> NewApproval(ws[n].calls[s].request) == Some(id)
    requires row.status != Pending ==>
               DecidedRow(ws[n].calls[s].request) == Some(id) && id in ws[n].tables.approvals
               && SameTerms(ws[n].tables.approvals[id], row) && RowWitnessed(ws, n, id)
               && EndsWith(ws[n + 1].tables, ws[n].calls[s].writes, id)
    ensures RowWitnessed(ws, n + 1, id)
  {
    if row.status == Pending {
      RequestedRowWitnessed(ws, n, s, id, row);
    } else {
      DecidedRowWitnessed(ws, n, s, id, row);
    }
  }

  lemma RequestedSameTerms(ws: seq<World>, n: nat, id: ApprovalId, row: Approval, row': Approval)
    requires n < |ws| && Requested(ws, n, id, row) && SameTerms(row, row')
    ensures Requested(ws, n, id, row')
  {
    var s :| RequestedBy(ws, n, id, row, s);
    assert RequestedBy(ws, n, id, row', s);
  }

  lemma InitialWitnessed(ws: seq<World>)
    requires |ws| > 0 && Initial(ws[0])
    ensures AllWitnessed(ws, 0)
  {
  }

  lemma RunStepWitnessed(ws: seq<World>, n: nat)
    requires Run(ws) && n + 1 < |ws| && AllWitnessed(ws, n)
    ensures AllWitnessed(ws, n + 1)
  {
    RunStep(ws, n);
    StepWitnessed(ws, n, StepAction(ws[n], ws[n + 1]));
  }

  /**
   * In every reachable state each approval was requested by a session that read its requester's permission for the
   * tool, and expires TTL after that session's clock reading; each decided one was decided by a session that, holding
   * the row lock, read that its decider may decide, the clock, and for an execution the requester's permission. The
   * decider read about is the one the row and its last event name.
   */
  lemma {:induction false} DecisionsHadAuthority(ws: seq<World>, n: nat)
    requires Run(ws) && n < |ws|
    ensures AllWitnessed(ws, n)
  {
    if n == 0 {
      InitialWitnessed(ws);
    } else {
      var m := n - 1;
      DecisionsHadAuthority(ws, m);
      RunStepWitnessed(ws, m);
    }
  }

  lemma StepWitnessed(ws: seq<World>, n: nat, a: Action)
    requires n + 1 < |ws| && Inv(ws[n]) && Allowed(ws[n], a) && ws[n + 1] == Apply(ws[n], a) && AllWitnessed(ws, n)
    ensures AllWitnessed(ws, n + 1)
  {
    var m := n + 1;
    forall s | s in ws[m].calls ensures PhaseWitnessed(ws, m, s) {
      CallsWitnessed(ws, n, a, s);
    }
    forall id | id in ws[m].tables.approvals ensures RowWitnessed(ws, m, id) {
      StepRowWitnessed(ws, n, a, id);
    }
  }

  /** A step writes the approval row its session buffered, or leaves the row alone. */
  predicate WritesRow(w: World, a: Action, id: ApprovalId) {
    Commits(w, a) && w.calls[a.session].writes.approval.Some? && w.calls[a.session].writes.approval.value.0 == id
  }

  lemma RowUnwritten(w: World, a: Action, id: ApprovalId)
    requires Inv(w) && Allowed(w, a) && !WritesRow(w, a, id)
    ensures id in Apply(w, a).tables.approvals <==> id in w.tables.approvals
    ensures id in w.tables.approvals ==> Apply(w, a).tables.approvals[id] == w.tables.approvals[id]
    ensures History(Apply(w, a).tables.audit, id) == History(w.tables.audit, id)
  {
    StepTables(w, a);
    if Commits(w, a) {
      TrailUntouched(w.tables, w.calls[a.session].writes, id);
    }
  }

  lemma StepEnding(w: World, a: Action)
    requires Inv(w) && Allowed(w, a) && Commits(w, a) && w.calls[a.session].writes.approval.Some?
    ensures var (id, row) := w.calls[a.session].writes.approval.value;
            row.status != Pending ==> EndsWith(Apply(w, a).tables, w.calls[a.session].writes, id)
  {
    StepTables(w, a);
    var writes := w.calls[a.session].writes;
    if writes.approval.value.1.status != Pending {
      CommittedEnding(w.tables, writes, writes.approval.value.0);
    }
  }

  lemma StepRowWitnessed(ws: seq<World>, n: nat, a: Action, id: ApprovalId)
    requires n + 1 < |ws| && Inv(ws[n]) && Allowed(ws[n], a) && ws[n + 1] == Apply(ws[n], a)
    requires AllWitnessed(ws, n) && id in ws[n + 1].tables.approvals
    ensures RowWitnessed(ws, n + 1, id)
  {
    ApplyPersists(ws[n], a);
    if WritesRow(ws[n], a, id) {
      CommittedRow(ws[n], a);
      StepEnding(ws[n], a);
      CommittedRowWitnessed(ws, n, a.session, id, ws[n].calls[a.session].writes.approval.value.1);
    } else {
      RowUnwritten(ws[n], a, id);
      RowLater(ws, n, id);
    }
  }

  // ---------------------------------------------------------------- expiry reports

  lemma {:induction false} ClockMonotone(ws: seq<World>, i: nat, j: nat)
    requires Run(ws) && i <= j < |ws|
    ensures ws[i].clock <= ws[j].clock
    decreases j
  {
    if i < j {
      ClockMonotone(ws, i, j - 1);
      RunStep(ws, j - 1);
      ApplyKeepsCatalog(ws[j - 1], StepAction(ws[j - 1], ws[j]));
    }
  }

  predicate SameTimes(w: World, w': World) {
    w'.clock == w.clock && w'.catalog == w.catalog
  }

  lemma StepKeepsClock(w: World, s: SessionId)
    requires s in w.calls
    ensures SameTimes(w, NextStep(w, s))
  {
    match w.calls[s].phase
    case Begin => assert SameTimes(w, FirstStep(w, s));
    case Authorised(row) => assert SameTimes(w, CheckPending(w, s, row));
    case Writing(_) =>
    case Unwinding(_) =>
    case _ => MiddleStepKeepsClock(w, s);
  }

  lemma MiddleStepKeepsClock(w: World, s: SessionId)
    requires s in w.calls && !w.calls[s].phase.Begin? && !w.calls[s].phase.Authorised?
    requires !w.calls[s].phase.Writing? && !w.calls[s].phase.Unwinding?
    ensures SameTimes(w, NextStep(w, s))
  {
    match w.calls[s].phase
    case ActionAllowed =>
    case RowRead(_) =>
    case Locked(_) =>
    case Timed(_, _, _) =>
    case Permitted(_, _, _) =>
    case Granting(_, _, _) =>
    case RoleTarget(_) =>
    case Scanned(_, _) =>
    case Finished(_) =>
  }

  lemma ApplyKeepsCatalog(w: World, a: Action)
    requires Allowed(w, a)
    ensures Apply(w, a).catalog == w.catalog && Apply(w, a).clock >= w.clock
  {
    if a.Advance? {
      StepKeepsClock(w, a.session);
    }
  }

  /** A `get` call is about to report the pending row it read as expired. */
  predicate ReportsExpired(w: World, g: SessionId, id: ApprovalId) {
    && g in w.calls && w.calls[g].request == GetApproval(id) && w.calls[g].phase.RowRead?
    && w.calls[g].phase.row.status == Pending && w.clock >= w.calls[g].phase.row.expiresAt
  }

  /**
   * After `get` reported an approval expired it can still become executed or rejected only by a
   * session that had read its clock, under the row lock, in an earlier state.
   */
  lemma ExpiredReportBindsLaterReadings(ws: seq<World>, i: nat, g: SessionId, id: ApprovalId, j: nat)
    requires Run(ws) && i <= j < |ws| && ReportsExpired(ws[i], g, id)
    requires id in ws[j].tables.approvals && ws[j].tables.approvals[id].status in {Executed, Rejected}
    ensures exists k, s :: 0 <= k < i && s in ws[j].calls && DecidedRow(ws[j].calls[s].request) == Some(id)
              && ws[j].tables.approvals[id].decidedAt.Some?
              && FindsTime(ws[k], s, Some(id), ws[j].tables.approvals[id].decidedAt.value)
  {
    RunInv(ws, i);
    RunInv(ws, j);
    assert CallOk(ws[i].tables, ws[i].clock, ws[i].calls[g]);
    RunEvolves(ws, i, j);
    DecisionsHadAuthority(ws, j);
    var row := ws[j].tables.approvals[id];
    assert RowOk(row) && RowWitnessed(ws, j, id) && Decided(ws, j, id, row, History(ws[j].tables.audit, id));
    var s :| DecidedBy(ws, j, id, row, History(ws[j].tables.audit, id)[1], s);
    var k: nat :| k < j && ReadsClockAt(ws, k, s, Some(id), row.decidedAt.value);
    if k >= i {
      ClockMonotone(ws, i, k);
    }
  }
}
