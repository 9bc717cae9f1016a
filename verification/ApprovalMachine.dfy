/**
 * Every session's service call as small steps over the shared tables, at READ COMMITTED: each read
 * sees the tables committed at that moment, row and key locks are held until commit or rollback.
 */
module ApprovalMachine {
  import opened Wrappers
  import opened ApprovalTypes

  /** Where a call stands between two statements. */
  datatype Phase =
    | Begin
    | ActionAllowed
    | RowRead(row: Approval)
    | Locked(row: Approval)
    | Authorised(row: Approval)
    | Timed(row: Approval, now: Time, tool: Tool)
    | Permitted(row: Approval, now: Time, tool: Tool)
    | Granting(row: Approval, now: Time, grant: Grant)
    | RoleTarget(grant: Grant)
    | Scanned(grant: Grant, seen: Option<TupleId>)
    | Writing(outcome: Outcome)
    | Unwinding(outcome: Outcome)
    | Finished(outcome: Outcome)

  /** One session running one call: `held` is its approval row lock, `key` its user_roles key lock. */
  datatype Call = Call(
    request: Request,
    phase: Phase,
    held: Option<ApprovalId>,
    key: Option<Grant>,
    writes: Writes)

  datatype World = World(
    tables: Tables,
    catalog: map<string, set<string>>,  // role name to permission names
    clock: Time,
    rowLocks: map<ApprovalId, SessionId>,
    keyLocks: map<Grant, SessionId>,
    calls: map<SessionId, Call>)

  datatype Action =
    | Open(session: SessionId, request: Request)
    | Advance(session: SessionId)
    | Fault(session: SessionId)
    | LoseAcknowledgement(session: SessionId)
    | Tick(now: Time)

  // ---------------------------------------------------------------- reads

  predicate HasPermission(w: World, user: UserId, permission: string) {
    exists role :: role in w.catalog && permission in w.catalog[role] && Grant(user, role) in w.tables.grants
  }

  function LookupActionTool(registry: Registry, name: string, arguments: Arguments): Result<Tool, Error> {
    if name !in registry then Err(UnknownTool)
    else if registry[name].risk != ApprovalRequired || registry[name].approvalExecutor == None then
      Err(NotApprovalRequired)
    else if arguments == Unparseable then Err(InvalidArguments)
    else Ok(registry[name])
  }

  function PendingTool(registry: Registry, row: Approval): Option<Tool> {
    match LookupActionTool(registry, row.tool, row.arguments)
    case Ok(tool) => Some(tool)
    case Err(_) => None
  }

  function DecidedRow(request: Request): Option<ApprovalId> {
    match request
    case Approve(_, id, _) => Some(id)
    case Reject(_, id, _) => Some(id)
    case _ => None
  }

  // ---------------------------------------------------------------- buffered transactions

  function RequestWrites(id: ApprovalId, actor: UserId, tool: string, arguments: Arguments, now: Time): Writes {
    Writes(Some((id, Approval(actor, tool, arguments, Pending, now + TTL, None, None, None))),
           NoGrant, None, [ApprovalRequested(actor, id)])
  }

  function ExpireWrites(id: ApprovalId, row: Approval, actor: UserId, now: Time): Writes {
    Writes(Some((id, row.(status := Expired, decidedAt := Some(now)))),
           NoGrant, None, [ApprovalExpired(actor, id)])
  }

  function RejectWrites(id: ApprovalId, row: Approval, actor: UserId, now: Time): Writes {
    Writes(Some((id, row.(status := Rejected, decidedBy := Some(actor), decidedAt := Some(now)))),
           NoGrant, None, [ApprovalRejected(actor, id)])
  }

  function ExecutedRow(row: Approval, actor: UserId, now: Time): Approval {
    row.(status := Executed, decidedBy := Some(actor), decidedAt := Some(now), executedAt := Some(now))
  }

  function ExecuteWrites(id: ApprovalId, row: Approval, actor: UserId, now: Time, g: Grant, created: bool): Writes {
    Writes(Some((id, ExecutedRow(row, actor, now))),
           if created then Insert(g) else NoGrant, None,
           [RoleAssigned(actor, g, created),
            ApprovalExecuted(actor, id, if created then Assigned else AlreadyAssigned)])
  }

  function AssignWrites(actor: UserId, g: Grant, created: bool): Writes {
    Writes(None, if created then Insert(g) else NoGrant, None, [RoleAssigned(actor, g, created)])
  }

  function RemoveWrites(actor: UserId, g: Grant, removed: bool): Writes {
    Writes(None, if removed then Delete(g) else NoGrant, None, [RoleRemoved(actor, g, removed)])
  }

  function CreateUserWrites(user: UserId): Writes {
    Writes(None, Insert(Grant(user, DEFAULT_ROLE)), Some(user), [])
  }

  // ---------------------------------------------------------------- one session's steps

  function Put(w: World, s: SessionId, c: Call): World {
    w.(calls := w.calls[s := c])
  }

  function Go(w: World, s: SessionId, phase: Phase): World
    requires s in w.calls
  {
    Put(w, s, w.calls[s].(phase := phase))
  }

  /** An exception reached the call's handler: the rollback comes next and keeps the locks until then. */
  function Raise(w: World, s: SessionId, error: Error): World
    requires s in w.calls
  {
    Put(w, s, w.calls[s].(phase := Unwinding(Failed(error)), writes := NO_WRITES))
  }

  function TakeRow(w: World, s: SessionId, id: ApprovalId, row: Approval): World
    requires s in w.calls
  {
    w.(rowLocks := w.rowLocks[id := s], calls := w.calls[s := w.calls[s].(phase := Locked(row), held := Some(id))])
  }

  /** Buffers a whole transaction; a grant it inserts or deletes is key-locked. */
  function Buffer(w: World, s: SessionId, ws: Writes, outcome: Outcome): World
    requires s in w.calls
  {
    var c := w.calls[s].(phase := Writing(outcome), writes := ws);
    if ws.grant.NoGrant? then
      Put(w, s, c)
    else
      w.(keyLocks := w.keyLocks[ws.grant.grant := s], calls := w.calls[s := c.(key := Some(ws.grant.grant))])
  }

  function Release(w: World, s: SessionId, phase: Phase): World
    requires s in w.calls
  {
    var c := w.calls[s];
    w.(rowLocks := if c.held.Some? then w.rowLocks - {c.held.value} else w.rowLocks,
    keyLocks := if c.key.Some? then w.keyLocks - {c.key.value} else w.keyLocks,
    calls := w.calls[s := Call(c.request, phase, None, None, NO_WRITES)])
  }

  function Commit(w: World, s: SessionId, phase: Phase): World
    requires s in w.calls
  {
    Release(w.(tables := Install(w.tables, w.calls[s].writes)), s, phase)
  }

  function FirstStep(w: World, s: SessionId): World
    requires s in w.calls
  {
    match w.calls[s].request
    case RequestAction(registry, actor, tool, arguments, _) =>
      (match LookupActionTool(registry, tool, arguments)
       case Err(e) => Go(w, s, Finished(Failed(e)))
       case Ok(definition) =>
         if HasPermission(w, actor, definition.permission) then Go(w, s, ActionAllowed)
         else Raise(w, s, ToolPermissionDenied))
    case GetApproval(id) =>
      if id in w.tables.approvals then Go(w, s, RowRead(w.tables.approvals[id])) else Raise(w, s, ApprovalNotFound)
    case Approve(_, id, _) =>
      if id in w.tables.approvals then TakeRow(w, s, id, w.tables.approvals[id]) else Raise(w, s, ApprovalNotFound)
    case Reject(_, id, _) =>
      if id in w.tables.approvals then TakeRow(w, s, id, w.tables.approvals[id]) else Raise(w, s, ApprovalNotFound)
    case AssignRole(_, user, role) => FindRoleTarget(w, s, user, role)
    case RemoveRole(_, user, role) => FindRoleTarget(w, s, user, role)
    case CreateUser(user) =>
      if DEFAULT_ROLE in w.catalog then Buffer(w, s, CreateUserWrites(user), UserCreated)
      else Raise(w, s, DefaultRoleMissing)
  }

  function FindRoleTarget(w: World, s: SessionId, user: UserId, role: string): World
    requires s in w.calls
  {
    if user !in w.tables.users then Raise(w, s, UserNotFound)
    else if role !in w.catalog then Raise(w, s, RoleNotFound)
    else Go(w, s, RoleTarget(Grant(user, role)))
  }

  function CreateApproval(w: World, s: SessionId): World
    requires s in w.calls
  {
    match w.calls[s].request
    case RequestAction(_, actor, tool, arguments, id) =>
      var ws := RequestWrites(id, actor, tool, arguments, w.clock);
      Buffer(w, s, ws, Snapshot(id, ws.approval.value.1))
    case _ => w
  }

  function ReportApproval(w: World, s: SessionId, row: Approval): World
    requires s in w.calls
  {
    match w.calls[s].request
    case GetApproval(id) =>
      var effective := if row.status == Pending && w.clock >= row.expiresAt then Expired else row.status;
      Go(w, s, Unwinding(Snapshot(id, row.(status := effective))))
    case _ => w
  }

  function CheckDecider(w: World, s: SessionId, row: Approval): World
    requires s in w.calls
  {
    match w.calls[s].request
    case Approve(_, _, approver) =>
      if HasPermission(w, approver, DECIDE) then Go(w, s, Authorised(row)) else Raise(w, s, PermissionDenied)
    case Reject(_, _, approver) =>
      if HasPermission(w, approver, DECIDE) then Go(w, s, Authorised(row)) else Raise(w, s, PermissionDenied)
    case _ => w
  }

  /** Status and definition checks, then the clock reading and what follows from it. */
  function CheckPending(w: World, s: SessionId, row: Approval): World
    requires s in w.calls
  {
    match w.calls[s].request
    case Approve(registry, id, approver) =>
      if row.status != Pending then Raise(w, s, StateConflict)
      else (match PendingTool(registry, row)
            case None => Raise(w, s, StateConflict)
            case Some(tool) =>
              if w.clock >= row.expiresAt then
                Buffer(w, s, ExpireWrites(id, row, approver, w.clock), Failed(StateConflict))
              else Go(w, s, Timed(row, w.clock, tool)))
    case Reject(registry, id, approver) =>
      if row.status != Pending then Raise(w, s, StateConflict)
      else if PendingTool(registry, row) == None then Raise(w, s, StateConflict)
      else if w.clock >= row.expiresAt then
        Buffer(w, s, ExpireWrites(id, row, approver, w.clock), Failed(StateConflict))
      else
        var ws := RejectWrites(id, row, approver, w.clock);
        Buffer(w, s, ws, Snapshot(id, ws.approval.value.1))
    case _ => w
  }

  function CheckRequester(w: World, s: SessionId, row: Approval, now: Time, tool: Tool): World
    requires s in w.calls
  {
    if HasPermission(w, row.requester, tool.permission) then Go(w, s, Permitted(row, now, tool))
    else Raise(w, s, PermissionDenied)
  }

  /** The executor up to its insert: the result-shape check fails for every other executor. */
  function RunExecutor(w: World, s: SessionId, row: Approval, now: Time, tool: Tool): World
    requires s in w.calls
  {
    if tool.approvalExecutor == None then Raise(w, s, StateConflict)
    else if tool.approvalExecutor == Some(OtherExecutor) || row.arguments == Unparseable then
      Raise(w, s, ToolExecution)
    else if row.arguments.user !in w.tables.users || SUPPORT_ROLE !in w.catalog then
      Raise(w, s, StateConflict)
    else
      Go(w, s, Granting(row, now, Grant(row.arguments.user, SUPPORT_ROLE)))
  }

  /** insert ... on conflict do nothing, then the executed row and both audit events. */
  function InsertApprovedGrant(w: World, s: SessionId, row: Approval, now: Time, g: Grant): World
    requires s in w.calls
  {
    match w.calls[s].request
    case Approve(_, id, approver) =>
      Buffer(w, s, ExecuteWrites(id, row, approver, now, g, g !in w.tables.grants),
             Snapshot(id, ExecutedRow(row, approver, now)))
    case _ => w
  }

  function ChangeRole(w: World, s: SessionId, g: Grant): World
    requires s in w.calls
  {
    match w.calls[s].request
    case AssignRole(actor, _, _) =>
      var created := g !in w.tables.grants;
      Buffer(w, s, AssignWrites(actor, g, created), RoleChange(created))
    case RemoveRole(_, _, _) =>
      Go(w, s, Scanned(g, if g in w.tables.grants then Some(w.tables.grants[g]) else None))
    case _ => w
  }

  /** The delete removes the tuple its snapshot saw, if that tuple is still the committed one. */
  function DeleteSeen(w: World, s: SessionId, g: Grant, seen: Option<TupleId>): World
    requires s in w.calls
  {
    match w.calls[s].request
    case RemoveRole(actor, _, _) =>
      var removed := seen.Some? && g in w.tables.grants && w.tables.grants[g] == seen.value;
      Buffer(w, s, RemoveWrites(actor, g, removed), RoleChange(removed))
    case _ => w
  }

  /** A decision that expired the row commits and then raises. */
  function AfterCommit(outcome: Outcome): Phase {
    if outcome.Failed? then Unwinding(outcome) else Finished(outcome)
  }

  function NextStep(w: World, s: SessionId): World
    requires s in w.calls
  {
    match w.calls[s].phase
    case Begin => FirstStep(w, s)
    case ActionAllowed => CreateApproval(w, s)
    case RowRead(row) => ReportApproval(w, s, row)
    case Locked(row) => CheckDecider(w, s, row)
    case Authorised(row) => CheckPending(w, s, row)
    case Timed(row, now, tool) => CheckRequester(w, s, row, now, tool)
    case Permitted(row, now, tool) => RunExecutor(w, s, row, now, tool)
    case Granting(row, now, g) => InsertApprovedGrant(w, s, row, now, g)
    case RoleTarget(g) => ChangeRole(w, s, g)
    case Scanned(g, seen) => DeleteSeen(w, s, g, seen)
    case Writing(o) => Commit(w, s, AfterCommit(o))
    case Unwinding(o) => Release(w, s, Finished(o))
    case Finished(_) => w
  }

  // ---------------------------------------------------------------- scheduling

  /** The lock a call's next statement has to wait for. */
  datatype Wait = NoWait | WaitRow(id: ApprovalId) | WaitKey(grant: Grant)

  function Needs(c: Call): Wait {
    match c.phase
    case Begin => (match DecidedRow(c.request) case Some(id) => WaitRow(id) case None => NoWait)
    case Granting(_, _, g) => WaitKey(g)
    case RoleTarget(g) => if c.request.AssignRole? then WaitKey(g) else NoWait
    case Scanned(g, seen) => if seen.Some? then WaitKey(g) else NoWait
    case _ => NoWait
  }

  predicate Blocked(w: World, s: SessionId)
    requires s in w.calls
  {
    match Needs(w.calls[s])
    case NoWait => false
    case WaitRow(id) => id in w.rowLocks
    case WaitKey(g) => g in w.keyLocks
  }

  function NewApproval(r: Request): Option<ApprovalId> {
    if r.RequestAction? then Some(r.newId) else None
  }

  function NewUser(r: Request): Option<UserId> {
    if r.CreateUser? then Some(r.newUser) else None
  }

  /** uuid4 never repeats: a drawn identifier is unused by the tables and by every other call. */
  predicate FreshIds(w: World, r: Request) {
    && (NewApproval(r).Some? ==>
          && NewApproval(r).value !in w.tables.approvals
          && forall s :: s in w.calls ==> NewApproval(w.calls[s].request) != NewApproval(r))
    && (NewUser(r).Some? ==>
          && NewUser(r).value !in w.tables.users
          && forall s :: s in w.calls ==> NewUser(w.calls[s].request) != NewUser(r))
  }

  predicate Running(w: World, s: SessionId) {
    s in w.calls && !w.calls[s].phase.Finished?
  }

  predicate Allowed(w: World, a: Action) {
    match a
    case Open(s, r) => s !in w.calls && FreshIds(w, r)
    case Advance(s) => Running(w, s) && !Blocked(w, s)
    case Fault(s) => Running(w, s) && !w.calls[s].phase.Unwinding?
    case LoseAcknowledgement(s) => s in w.calls && w.calls[s].phase.Writing?
    case Tick(now) => now >= w.clock
  }

  function Apply(w: World, a: Action): World
    requires Allowed(w, a)
  {
    match a
    case Open(s, r) => Put(w, s, Call(r, Begin, None, None, NO_WRITES))
    case Advance(s) => NextStep(w, s)
    case Fault(s) => Raise(w, s, Unavailable)
    case LoseAcknowledgement(s) => Commit(w, s, Unwinding(Failed(Unavailable)))
    case Tick(now) => w.(clock := now)
  }

  /** Start: migrated tables with any users and grants, no approvals, no audit, no sessions. */
  predicate Initial(w: World) {
    && w.tables.approvals == map[]
    && w.tables.audit == []
    && (forall g :: g in w.tables.grants ==> g.user in w.tables.users && w.tables.grants[g] < w.tables.nextTuple)
    && w.rowLocks == map[] && w.keyLocks == map[] && w.calls == map[]
  }

  ghost predicate Step(w: World, w': World) {
    exists a :: Allowed(w, a) && w' == Apply(w, a)
  }

  ghost predicate StepAt(ws: seq<World>, i: nat)
    requires i + 1 < |ws|
  {
    Step(ws[i], ws[i + 1])
  }

  /** A run: any interleaving of any number of sessions, with faults at any step. */
  ghost predicate Run(ws: seq<World>) {
    && |ws| > 0
    && Initial(ws[0])
    && forall i: nat | i + 1 < |ws| :: StepAt(ws, i)
  }
}
