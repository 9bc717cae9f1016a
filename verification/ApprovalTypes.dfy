/** Tables, requests and buffered writes of the approval, role and audit services. */
module ApprovalTypes {
  import opened Wrappers

  type UserId = nat
  type ApprovalId = nat
  type SessionId = nat
  type TupleId = nat
  type Time = int  // microseconds

  const DECIDE := "approval:decide"
  const SUPPORT_ROLE := "support_agent"
  const DEFAULT_ROLE := "user"
  const TTL: Time := 15 * 60 * 1_000_000

  datatype Risk = ReadOnly | ApprovalRequired

  /** `OtherExecutor` is any executor that changes nothing and whose result fails the shape check. */
  datatype Executor = GrantSupportAgentRole | OtherExecutor

  datatype Tool = Tool(permission: string, risk: Risk, approvalExecutor: Option<Executor>)

  type Registry = map<string, Tool>

  /** Tool arguments as stored in the row: they either validate to a target user or do not validate. */
  datatype Arguments = TargetUser(user: UserId) | Unparseable

  datatype Status = Pending | Executed | Rejected | Expired

  datatype Approval = Approval(
    requester: UserId,
    tool: string,
    arguments: Arguments,
    status: Status,
    expiresAt: Time,
    decidedBy: Option<UserId>,
    decidedAt: Option<Time>,
    executedAt: Option<Time>)

  datatype Grant = Grant(user: UserId, role: string)

  datatype GrantResult = Assigned | AlreadyAssigned

  datatype AuditEvent =
    | ApprovalRequested(actor: UserId, id: ApprovalId)
    | ApprovalExecuted(actor: UserId, id: ApprovalId, result: GrantResult)
    | ApprovalRejected(actor: UserId, id: ApprovalId)
    | ApprovalExpired(actor: UserId, id: ApprovalId)
    | RoleAssigned(actor: UserId, grant: Grant, changed: bool)
    | RoleRemoved(actor: UserId, grant: Grant, changed: bool)

  /**
   * The committed tables. `grants` maps each user_roles row to the identity of its tuple, so that a
   * row deleted and inserted again is a different tuple. `audit` lists, in commit order, the events
   * each transaction committed.
   */
  datatype Tables = Tables(
    approvals: map<ApprovalId, Approval>,
    grants: map<Grant, TupleId>,
    nextTuple: TupleId,
    users: set<UserId>,
    audit: seq<seq<AuditEvent>>)

  datatype GrantWrite = NoGrant | Insert(grant: Grant) | Delete(grant: Grant)

  /** What one open transaction has written and not yet committed. */
  datatype Writes = Writes(
    approval: Option<(ApprovalId, Approval)>,
    grant: GrantWrite,
    user: Option<UserId>,
    events: seq<AuditEvent>)

  const NO_WRITES := Writes(None, NoGrant, None, [])

  function Install(t: Tables, ws: Writes): Tables {
    t.(approvals := if ws.approval.Some? then t.approvals[ws.approval.value.0 := ws.approval.value.1] else t.approvals,
    grants := match ws.grant
              case NoGrant => t.grants
              case Insert(g) => t.grants[g := t.nextTuple]
              case Delete(g) => t.grants - {g},
    nextTuple := if ws.grant.Insert? then t.nextTuple + 1 else t.nextTuple,
    users := if ws.user.Some? then t.users + {ws.user.value} else t.users,
    audit := if ws.events == [] then t.audit else t.audit + [ws.events])
  }

  /** Everything `ws` wrote is committed in `t`, its events last in the trail. */
  predicate Installed(t: Tables, ws: Writes) {
    && (ws.approval.Some? ==>
          ws.approval.value.0 in t.approvals && t.approvals[ws.approval.value.0] == ws.approval.value.1)
    && (ws.grant.Insert? ==> ws.grant.grant in t.grants)
    && (ws.grant.Delete? ==> ws.grant.grant !in t.grants)
    && (ws.user.Some? ==> ws.user.value in t.users)
    && (ws.events != [] ==> t.audit != [] && t.audit[|t.audit| - 1] == ws.events)
  }

  lemma InstallInstalls(t: Tables, ws: Writes)
    ensures Installed(Install(t, ws), ws)
  {
  }

  datatype Error =
    | UnknownTool | NotApprovalRequired | InvalidArguments | ToolPermissionDenied
    | ApprovalNotFound | PermissionDenied | StateConflict | ToolExecution
    | UserNotFound | RoleNotFound | DefaultRoleMissing | Unavailable

  datatype Outcome =
    | Snapshot(id: ApprovalId, row: Approval)
    | RoleChange(changed: bool)
    | UserCreated
    | Failed(error: Error)

  /** A service call. `newId` and `newUser` are the identifiers the call would draw with uuid4. */
  datatype Request =
    | RequestAction(registry: Registry, actor: UserId, tool: string, arguments: Arguments, newId: ApprovalId)
    | GetApproval(id: ApprovalId)
    | Approve(registry: Registry, id: ApprovalId, approver: UserId)
    | Reject(registry: Registry, id: ApprovalId, approver: UserId)
    | AssignRole(actor: UserId, user: UserId, role: string)
    | RemoveRole(actor: UserId, user: UserId, role: string)
    | CreateUser(newUser: UserId)
}
