/**
 * What the committed tables and the audit trail say to each other, and why every transaction the
 * services can commit keeps that agreement.
 */
module AuditTrail {
  import opened Wrappers
  import opened ApprovalTypes

  // ---------------------------------------------------------------- reading the trail

  function EventId(e: AuditEvent): Option<ApprovalId> {
    match e
    case ApprovalRequested(_, id) => Some(id)
    case ApprovalExecuted(_, id, _) => Some(id)
    case ApprovalRejected(_, id) => Some(id)
    case ApprovalExpired(_, id) => Some(id)
    case _ => None
  }

  /** The approval events of one transaction that concern `id`. */
  function About(batch: seq<AuditEvent>, id: ApprovalId): seq<AuditEvent> {
    if batch == [] then []
    else (if EventId(batch[0]) == Some(id) then [batch[0]] else []) + About(batch[1..], id)
  }

  /** The approval events concerning `id` in the whole trail, in commit order. */
  function History(audit: seq<seq<AuditEvent>>, id: ApprovalId): seq<AuditEvent> {
    if audit == [] then []
    else History(audit[..|audit| - 1], id) + About(audit[|audit| - 1], id)
  }

  function ReplayEvent(grants: set<Grant>, e: AuditEvent): set<Grant> {
    match e
    case RoleAssigned(_, g, changed) => if changed then grants + {g} else grants
    case RoleRemoved(_, g, changed) => if changed then grants - {g} else grants
    case _ => grants
  }

  function ReplayBatch(grants: set<Grant>, batch: seq<AuditEvent>): set<Grant>
    decreases batch
  {
    if batch == [] then grants else ReplayBatch(ReplayEvent(grants, batch[0]), batch[1..])
  }

  /** Plays the role events with changed=true over a starting role table. */
  function Replay(grants: set<Grant>, audit: seq<seq<AuditEvent>>): set<Grant> {
    if audit == [] then grants
    else ReplayBatch(Replay(grants, audit[..|audit| - 1]), audit[|audit| - 1])
  }

  /** An event with changed=true really changed the role table it was replayed on. */
  predicate EventTruthful(grants: set<Grant>, e: AuditEvent) {
    match e
    case RoleAssigned(_, g, changed) => changed ==> g !in grants
    case RoleRemoved(_, g, changed) => changed ==> g in grants
    case _ => true
  }

  predicate BatchTruthful(grants: set<Grant>, batch: seq<AuditEvent>)
    decreases batch
  {
    batch != [] ==> EventTruthful(grants, batch[0]) && BatchTruthful(ReplayEvent(grants, batch[0]), batch[1..])
  }

  predicate TrailTruthful(grants: set<Grant>, audit: seq<seq<AuditEvent>>) {
    audit != [] ==>
      TrailTruthful(grants, audit[..|audit| - 1])
            && BatchTruthful(Replay(grants, audit[..|audit| - 1]), audit[|audit| - 1])
  }

  // ---------------------------------------------------------------- the agreement

  /** Decision fields of a row, by status. */
  predicate RowOk(row: Approval) {
    match row.status
    case Pending => row.decidedBy == None && row.decidedAt == None && row.executedAt == None
    case Executed => row.decidedBy.Some? && row.decidedAt.Some? && row.decidedAt.value < row.expiresAt
                     && row.executedAt == row.decidedAt && row.arguments.TargetUser?
    case Rejected => row.decidedBy.Some? && row.decidedAt.Some? && row.decidedAt.value < row.expiresAt
                     && row.executedAt == None
    case Expired => row.decidedBy == None && row.decidedAt.Some? && row.decidedAt.value >= row.expiresAt
                    && row.executedAt == None
  }

  predicate SameTerms(a: Approval, b: Approval) {
    a.requester == b.requester && a.tool == b.tool && a.arguments == b.arguments && a.expiresAt == b.expiresAt
  }

  /** The one event that ends an approval's life, matching the row's status and decider. */
  predicate Ends(e: AuditEvent, id: ApprovalId, row: Approval) {
    match row.status
    case Pending => false
    case Executed => e.ApprovalExecuted? && e.id == id && Some(e.actor) == row.decidedBy
    case Rejected => e.ApprovalRejected? && e.id == id && Some(e.actor) == row.decidedBy
    case Expired => e.ApprovalExpired? && e.id == id
  }

  /** The trail of an approval is its request, then, exactly when it is decided, one matching ending. */
  predicate Lifecycle(t: Tables, id: ApprovalId) {
    var h := History(t.audit, id);
    if id !in t.approvals then h == []
    else
      var row := t.approvals[id];
      && |h| == (if row.status == Pending then 1 else 2)
      && h[0] == ApprovalRequested(row.requester, id)
      && (row.status != Pending ==> Ends(h[1], id, row))
  }

  function ResultOf(changed: bool): GrantResult {
    if changed then Assigned else AlreadyAssigned
  }

  /** An execution is committed with the one role assignment it performed, and with nothing else. */
  predicate ExecutionBatch(approvals: map<ApprovalId, Approval>, batch: seq<AuditEvent>, k: nat)
    requires k < |batch| && batch[k].ApprovalExecuted?
  {
    var e := batch[k];
    && e.id in approvals
    && var row := approvals[e.id];
    && row.status == Executed && row.arguments.TargetUser?
    && k == 1 && |batch| == 2 && batch[0].RoleAssigned?
    && batch[0] == RoleAssigned(e.actor, Grant(row.arguments.user, SUPPORT_ROLE), batch[0].changed)
    && e.result == ResultOf(batch[0].changed)
  }

  predicate BatchOk(approvals: map<ApprovalId, Approval>, users: set<UserId>, batch: seq<AuditEvent>) {
    forall k | 0 <= k < |batch| ::
      && (batch[k].ApprovalExecuted? ==> ExecutionBatch(approvals, batch, k))
      && (batch[k].RoleAssigned? || batch[k].RoleRemoved? ==> batch[k].grant.user in users)
  }

  ghost predicate TablesOk(t: Tables) {
    && (forall id :: id in t.approvals ==> RowOk(t.approvals[id]))
    && (forall id :: Lifecycle(t, id))
    && (forall k | 0 <= k < |t.audit| :: BatchOk(t.approvals, t.users, t.audit[k]))
    && (forall g :: g in t.grants ==> g.user in t.users)
  }

  /** The grants every user created since `start` received without an audit event. */
  function DefaultGrants(start: Tables, t: Tables): set<Grant> {
    set u | u in t.users && u !in start.users :: Grant(u, DEFAULT_ROLE)
  }

  predicate RolesReplayed(start: Tables, t: Tables) {
    && start.users <= t.users
    && (forall g :: g in start.grants ==> g.user in start.users)
    && t.grants.Keys == Replay(start.grants.Keys + DefaultGrants(start, t), t.audit)
    && TrailTruthful(start.grants.Keys + DefaultGrants(start, t), t.audit)
  }

  // ---------------------------------------------------------------- transactions

  /** A grant write that agrees with the role event reporting it. */
  predicate GrantFits(t: Tables, gw: GrantWrite, e: AuditEvent) {
    && (e.RoleAssigned? || e.RoleRemoved?)
    && e.grant.user in t.users
    && match gw
       case NoGrant => !e.changed
       case Insert(g) => e.RoleAssigned? && e.changed && g == e.grant && g !in t.grants
       case Delete(g) => e.RoleRemoved? && e.changed && g == e.grant && g in t.grants
  }

  predicate IsRequest(t: Tables, ws: Writes) {
    && ws.approval.Some? && ws.grant == NoGrant && ws.user == None
    && var (id, row) := ws.approval.value;
    && id !in t.approvals && row.status == Pending && RowOk(row)
    && ws.events == [ApprovalRequested(row.requester, id)]
  }

  predicate Decides(t: Tables, ws: Writes) {
    && ws.approval.Some? && ws.user == None
    && var (id, row) := ws.approval.value;
    && id in t.approvals && t.approvals[id].status == Pending && row.status != Pending
    && SameTerms(t.approvals[id], row) && RowOk(row)
  }

  predicate IsClosing(t: Tables, ws: Writes) {
    && Decides(t, ws) && ws.grant == NoGrant
    && ws.approval.value.1.status != Executed
    && |ws.events| == 1 && Ends(ws.events[0], ws.approval.value.0, ws.approval.value.1)
  }

  predicate IsExecution(t: Tables, ws: Writes) {
    && Decides(t, ws)
    && var (id, row) := ws.approval.value;
    && row.status == Executed
    && |ws.events| == 2 && GrantFits(t, ws.grant, ws.events[0]) && ws.events[0].RoleAssigned?
    && ws.events[0].actor == row.decidedBy.value
    && ws.events[0].grant == Grant(row.arguments.user, SUPPORT_ROLE)
    && ws.events[1] == ApprovalExecuted(row.decidedBy.value, id, ResultOf(ws.events[0].changed))
  }

  predicate IsRoleChange(t: Tables, ws: Writes) {
    && ws.approval == None && ws.user == None
    && |ws.events| == 1 && GrantFits(t, ws.grant, ws.events[0])
  }

  predicate IsUserCreation(t: Tables, ws: Writes) {
    && ws.approval == None && ws.events == []
    && ws.user.Some? && ws.user.value !in t.users
    && ws.grant == Insert(Grant(ws.user.value, DEFAULT_ROLE))
  }

  /** The transactions the services commit. */
  predicate Sound(t: Tables, ws: Writes) {
    IsRequest(t, ws) || IsClosing(t, ws) || IsExecution(t, ws) || IsRoleChange(t, ws) || IsUserCreation(t, ws)
  }

  // ---------------------------------------------------------------- each keeps the agreement

  lemma HistoryOfInstall(t: Tables, ws: Writes, id: ApprovalId)
    ensures History(Install(t, ws).audit, id) == History(t.audit, id) + About(ws.events, id)
  {
    if ws.events != [] {
      assert (t.audit + [ws.events])[..|t.audit|] == t.audit;
    }
  }

  lemma AboutShort(batch: seq<AuditEvent>, id: ApprovalId)
    requires |batch| <= 2
    ensures About(batch, id) ==
            (if |batch| > 0 && EventId(batch[0]) == Some(id) then [batch[0]] else [])
            + (if |batch| > 1 && EventId(batch[1]) == Some(id) then [batch[1]] else [])
  {
    if |batch| > 0 {
      assert |batch[1..]| < 2;
      if |batch| == 2 {
        assert batch[1..][1..] == [];
      }
    }
  }

  lemma InstallKeepsLifecycle(t: Tables, ws: Writes, id: ApprovalId)
    requires TablesOk(t) && Sound(t, ws)
    ensures Lifecycle(Install(t, ws), id)
  {
    assert Lifecycle(t, id);
    HistoryOfInstall(t, ws, id);
    AboutShort(ws.events, id);
  }

  lemma InstallKeepsBatch(t: Tables, ws: Writes, batch: seq<AuditEvent>)
    requires TablesOk(t) && Sound(t, ws) && BatchOk(t.approvals, t.users, batch)
    ensures BatchOk(Install(t, ws).approvals, Install(t, ws).users, batch)
  {
    var t' := Install(t, ws);
    forall k | 0 <= k < |batch| && batch[k].ApprovalExecuted?
      ensures ExecutionBatch(t'.approvals, batch, k)
    {
      assert ExecutionBatch(t.approvals, batch, k);
    }
  }

  lemma InstalledBatchOk(t: Tables, ws: Writes)
    requires TablesOk(t) && Sound(t, ws)
    ensures BatchOk(Install(t, ws).approvals, Install(t, ws).users, ws.events)
  {
  }

  lemma InstallKeepsTables(t: Tables, ws: Writes)
    requires TablesOk(t) && Sound(t, ws)
    ensures TablesOk(Install(t, ws))
  {
    var t' := Install(t, ws);
    forall id ensures Lifecycle(t', id) {
      InstallKeepsLifecycle(t, ws, id);
    }
    forall k | 0 <= k < |t'.audit| ensures BatchOk(t'.approvals, t'.users, t'.audit[k]) {
      if k < |t.audit| {
        assert t'.audit[k] == t.audit[k];
        InstallKeepsBatch(t, ws, t.audit[k]);
      } else {
        InstalledBatchOk(t, ws);
      }
    }
  }

  // ---------------------------------------------------------------- two open transactions

  /** Two transactions that write different approval rows, grants and users. */
  predicate Apart(ws: Writes, ws': Writes) {
    && (ws.approval.Some? && ws'.approval.Some? ==> ws.approval.value.0 != ws'.approval.value.0)
    && (ws.grant != NoGrant && ws'.grant != NoGrant ==> ws.grant.grant != ws'.grant.grant)
    && (ws.user.Some? ==> ws.user != ws'.user)
  }

  lemma SoundFramed(t: Tables, ws: Writes, ws': Writes)
    requires Sound(t, ws) && Sound(t, ws') && Apart(ws, ws')
    ensures Sound(Install(t, ws), ws')
  {
    var t' := Install(t, ws);
    if IsRequest(t, ws') {
      assert IsRequest(t', ws');
    } else if IsClosing(t, ws') {
      assert IsClosing(t', ws');
    } else if IsExecution(t, ws') {
      GrantFitsFramed(t, ws, ws', ws'.events[0]);
      assert IsExecution(t', ws');
    } else if IsRoleChange(t, ws') {
      GrantFitsFramed(t, ws, ws', ws'.events[0]);
      assert IsRoleChange(t', ws');
    } else {
      assert IsUserCreation(t', ws');
    }
  }

  lemma GrantFitsFramed(t: Tables, ws: Writes, ws': Writes, e: AuditEvent)
    requires Apart(ws, ws') && GrantFits(t, ws'.grant, e)
    ensures GrantFits(Install(t, ws), ws'.grant, e)
  {
  }

  // ---------------------------------------------------------------- replay

  predicate Untouched(batch: seq<AuditEvent>, g: Grant) {
    forall e :: e in batch && (e.RoleAssigned? || e.RoleRemoved?) ==> e.grant != g
  }

  lemma {:induction false} ReplayBatchAdds(grants: set<Grant>, batch: seq<AuditEvent>, g: Grant)
    requires Untouched(batch, g)
    ensures ReplayBatch(grants + {g}, batch) == ReplayBatch(grants, batch) + {g}
    ensures BatchTruthful(grants, batch) ==> BatchTruthful(grants + {g}, batch)
    decreases batch
  {
    if batch != [] {
      var e := batch[0];
      assert e in batch;
      assert ReplayEvent(grants + {g}, e) == ReplayEvent(grants, e) + {g};
      ReplayBatchAdds(ReplayEvent(grants, e), batch[1..], g);
    }
  }

  lemma {:induction false} ReplayAdds(grants: set<Grant>, audit: seq<seq<AuditEvent>>, g: Grant)
    requires forall k | 0 <= k < |audit| :: Untouched(audit[k], g)
    ensures Replay(grants + {g}, audit) == Replay(grants, audit) + {g}
    ensures TrailTruthful(grants, audit) ==> TrailTruthful(grants + {g}, audit)
  {
    if audit != [] {
      ReplayAdds(grants, audit[..|audit| - 1], g);
      ReplayBatchAdds(Replay(grants, audit[..|audit| - 1]), audit[|audit| - 1], g);
    }
  }

  lemma ReplayBatchShort(grants: set<Grant>, batch: seq<AuditEvent>)
    requires |batch| == 1 || (|batch| == 2 && batch[1].ApprovalExecuted?)
    ensures ReplayBatch(grants, batch) == ReplayEvent(grants, batch[0])
    ensures BatchTruthful(grants, batch) == EventTruthful(grants, batch[0])
  {
    if |batch| == 2 {
      assert batch[1..] == [batch[1]];
      assert ReplayBatch(ReplayEvent(grants, batch[0]), [batch[1]]) == ReplayEvent(grants, batch[0]);
      assert BatchTruthful(ReplayEvent(grants, batch[0]), [batch[1]]);
    }
  }

  lemma NewUserIsUntouched(t: Tables, u: UserId)
    requires TablesOk(t) && u !in t.users
    ensures forall k | 0 <= k < |t.audit| :: Untouched(t.audit[k], Grant(u, DEFAULT_ROLE))
  {
    forall k | 0 <= k < |t.audit| ensures Untouched(t.audit[k], Grant(u, DEFAULT_ROLE)) {
      assert BatchOk(t.approvals, t.users, t.audit[k]);
    }
  }

  lemma InstallKeepsReplay(start: Tables, t: Tables, ws: Writes)
    requires TablesOk(t) && Sound(t, ws) && RolesReplayed(start, t)
    ensures RolesReplayed(start, Install(t, ws))
  {
    var t' := Install(t, ws);
    var base := start.grants.Keys + DefaultGrants(start, t);
    if IsUserCreation(t, ws) {
      var u := ws.user.value;
      var g := Grant(u, DEFAULT_ROLE);
      assert DefaultGrants(start, t') == DefaultGrants(start, t) + {g};
      assert start.grants.Keys + DefaultGrants(start, t') == base + {g};
      NewUserIsUntouched(t, u);
      ReplayAdds(base, t.audit, g);
      assert t'.grants.Keys == t.grants.Keys + {g};
    } else {
      assert t'.audit[..|t.audit|] == t.audit;
      assert Replay(base, t'.audit) == ReplayBatch(Replay(base, t.audit), ws.events);
      ReplayBatchShort(t.grants.Keys, ws.events);
      match ws.grant
      case NoGrant =>
      case Insert(g) => assert t'.grants.Keys == t.grants.Keys + {g};
      case Delete(g) => assert t'.grants.Keys == t.grants.Keys - {g};
    }
  }

  // ---------------------------------------------------------------- rows only move forward

  /** Later tables keep every row's terms, and keep a decided row exactly as it is. */
  predicate Evolves(t: Tables, t': Tables) {
    && t.users <= t'.users
    && forall id :: id in t.approvals ==>
         && id in t'.approvals
         && SameTerms(t.approvals[id], t'.approvals[id])
         && (t.approvals[id].status != Pending ==> t'.approvals[id] == t.approvals[id])
  }

  lemma InstallEvolves(t: Tables, ws: Writes)
    requires Sound(t, ws)
    ensures Evolves(t, Install(t, ws))
  {
  }
}
