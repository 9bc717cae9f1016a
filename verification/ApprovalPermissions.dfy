/** Which roles stood behind every request and decision, and what the calls do, exactly, with and without them. */
module ApprovalPermissions {
  import opened Wrappers
  import opened ApprovalTypes
  import opened ApprovalMachine
  import opened AuditTrail
  import opened ApprovalInvariant
  import opened ApprovalTheorems
  import opened ApprovalAuthority
  import opened ApprovalAlone

  /** The user is granted the role, and the role has the permission. */
  predicate HoldsRole(w: World, user: UserId, permission: string, role: string) {
    Grant(user, role) in w.tables.grants && role in w.catalog && permission in w.catalog[role]
  }

  ghost predicate Holds(w: World, user: UserId, permission: string) {
    exists role :: HoldsRole(w, user, permission, role)
  }

  lemma PermissionIsRole(w: World, user: UserId, permission: string)
    ensures HasPermission(w, user, permission) <==> Holds(w, user, permission)
  {
    if HasPermission(w, user, permission) {
      var role :| role in w.catalog && permission in w.catalog[role] && Grant(user, role) in w.tables.grants;
      assert HoldsRole(w, user, permission, role);
    }
  }

  // ---------------------------------------------------------------- over whole runs

  /** Step `k` of the run is a statement of session `s`, which runs `r` and holds the row lock, if it is to hold one. */
  predicate StatementAt(ws: seq<World>, k: nat, s: SessionId, r: Request, held: Option<ApprovalId>)
    requires k + 1 < |ws|
  {
    s in ws[k].calls && ws[k].calls[s].request == r && ws[k].calls[s].held == held && ws[k + 1] == NextStep(ws[k], s)
  }

  lemma StepPersists(ws: seq<World>, i: nat)
    requires Run(ws) && i + 1 < |ws|
    ensures CallsPersist(ws[i], ws[i + 1])
  {
    RunStep(ws, i);
    ApplyPersists(ws[i], StepAction(ws[i], ws[i + 1]));
  }

  lemma {:induction false} RequestStays(ws: seq<World>, k: nat, n: nat, s: SessionId)
    requires Run(ws) && k <= n < |ws| && s in ws[k].calls
    ensures s in ws[n].calls && ws[n].calls[s].request == ws[k].calls[s].request
    decreases n
  {
    if k < n {
      var m := n - 1;
      RequestStays(ws, k, m, s);
      StepPersists(ws, m);
    }
  }

  lemma WitnessHeldRole(ws: seq<World>, n: nat, s: SessionId, held: Option<ApprovalId>, user: UserId, permission: string)
    returns (k: nat, role: string)
    requires Run(ws) && n < |ws| && s in ws[n].calls && Witnessed(ws, n, s, held, user, permission)
    ensures k < n && StatementAt(ws, k, s, ws[n].calls[s].request, held) && HoldsRole(ws[k], user, permission, role)
  {
    k :| k < n && ReadsAt(ws, k, s, held, user, permission);
    RequestStays(ws, k, n, s);
    PermissionIsRole(ws[k], user, permission);
    role :| HoldsRole(ws[k], user, permission, role);
  }

  /** The session that requested an approval read a role of its requester with the tool's permission. */
  lemma RequestersHeldARole(ws: seq<World>, n: nat, id: ApprovalId) returns (s: SessionId, k: nat, role: string)
    requires Run(ws) && n < |ws| && id in ws[n].tables.approvals
    ensures s in ws[n].calls && ws[n].calls[s].request.RequestAction? && ws[n].calls[s].request.newId == id
    ensures
      var row, r := ws[n].tables.approvals[id], ws[n].calls[s].request;
      && r.actor == row.requester && r.tool == row.tool && row.tool in r.registry
      && k < n && StatementAt(ws, k, s, r, None)
      && HoldsRole(ws[k], row.requester, r.registry[row.tool].permission, role)
  {
    DecisionsHadAuthority(ws, n);
    var row := ws[n].tables.approvals[id];
    assert RowWitnessed(ws, n, id);
    s :| RequestedBy(ws, n, id, row, s);
    k, role := WitnessHeldRole(ws, n, s, None, row.requester, ws[n].calls[s].request.registry[row.tool].permission);
  }

  lemma DecisionOf(ws: seq<World>, n: nat, id: ApprovalId) returns (s: SessionId)
    requires Run(ws) && n < |ws| && id in ws[n].tables.approvals && ws[n].tables.approvals[id].status != Pending
    ensures |History(ws[n].tables.audit, id)| == 2
    ensures DecidedBy(ws, n, id, ws[n].tables.approvals[id], History(ws[n].tables.audit, id)[1], s)
  {
    DecisionsHadAuthority(ws, n);
    var row := ws[n].tables.approvals[id];
    assert RowWitnessed(ws, n, id);
    assert Decided(ws, n, id, row, History(ws[n].tables.audit, id));
    s :| DecidedBy(ws, n, id, row, History(ws[n].tables.audit, id)[1], s);
  }

  /**
   * The session that executed, rejected or expired an approval read, holding the row lock, a role with approval:decide
   * of the very user that the last event names and, where the row names a decider, the row.
   */
  lemma DecidersHeldARole(ws: seq<World>, n: nat, id: ApprovalId) returns (s: SessionId, k: nat, role: string)
    requires Run(ws) && n < |ws| && id in ws[n].tables.approvals && ws[n].tables.approvals[id].status != Pending
    ensures s in ws[n].calls && k < n && StatementAt(ws, k, s, ws[n].calls[s].request, Some(id))
    ensures
      var row, trail := ws[n].tables.approvals[id], History(ws[n].tables.audit, id);
      && |trail| == 2 && (row.status in {Executed, Rejected} ==> row.decidedBy == Some(trail[1].actor))
      && HoldsRole(ws[k], trail[1].actor, "approval:decide", role)
  {
    s := DecisionOf(ws, n, id);
    var r := ws[n].calls[s].request;
    k, role := WitnessHeldRole(ws, n, s, Some(id), r.approver, "approval:decide");
  }

  /** The session that executed an approval also read, under the lock, a role of its requester with the tool's permission. */
  lemma ExecutionsRequesterHeldARole(ws: seq<World>, n: nat, id: ApprovalId)
    returns (s: SessionId, k: nat, role: string)
    requires Run(ws) && n < |ws| && id in ws[n].tables.approvals && ws[n].tables.approvals[id].status == Executed
    ensures s in ws[n].calls && ws[n].calls[s].request.Approve? && ws[n].calls[s].request.id == id
    ensures
      var row, r := ws[n].tables.approvals[id], ws[n].calls[s].request;
      && row.decidedBy == Some(r.approver) && row.tool in r.registry
      && k < n && StatementAt(ws, k, s, r, Some(id))
      && HoldsRole(ws[k], row.requester, r.registry[row.tool].permission, role)
  {
    s := DecisionOf(ws, n, id);
    var row, r := ws[n].tables.approvals[id], ws[n].calls[s].request;
    k, role := WitnessHeldRole(ws, n, s, Some(id), row.requester, r.registry[row.tool].permission);
  }

  // ---------------------------------------------------------------- undisturbed calls, exactly

  /** The tool is registered, needs approval, and can be executed once approved. */
  predicate Approvable(registry: Registry, tool: string, arguments: Arguments) {
    && tool in registry && registry[tool].risk == ApprovalRequired && registry[tool].approvalExecutor.Some?
    && arguments.TargetUser?
  }

  /** Which error each unusable request of a tool gives, and that every other is usable. */
  lemma LookupExactly(registry: Registry, tool: string, arguments: Arguments)
    ensures LookupActionTool(registry, tool, arguments) == Err(UnknownTool) <==> tool !in registry
    ensures LookupActionTool(registry, tool, arguments) == Err(NotApprovalRequired)
            <==> tool in registry && (registry[tool].risk == ReadOnly || registry[tool].approvalExecutor == None)
    ensures LookupActionTool(registry, tool, arguments) == Err(InvalidArguments)
            <==> tool in registry && registry[tool].risk == ApprovalRequired && registry[tool].approvalExecutor.Some?
                 && arguments == Unparseable
    ensures LookupActionTool(registry, tool, arguments).Ok? <==> Approvable(registry, tool, arguments)
    ensures Approvable(registry, tool, arguments) ==> LookupActionTool(registry, tool, arguments).value == registry[tool]
  {
  }

  /** Everything that approve asks before it executes. */
  ghost predicate MayExecute(w: World, registry: Registry, id: ApprovalId, approver: UserId) {
    && id in w.tables.approvals && Holds(w, approver, "approval:decide")
    && var row := w.tables.approvals[id];
    && row.status == Pending && w.clock < row.expiresAt && Approvable(registry, row.tool, row.arguments)
    && Holds(w, row.requester, registry[row.tool].permission)
    && registry[row.tool].approvalExecutor == Some(GrantSupportAgentRole)
    && row.arguments.user in w.tables.users && "support_agent" in w.catalog
  }

  /** The tables after an execution: the row, the role and both events, and nothing else. */
  predicate ExecutedIn(t: Tables, t': Tables, id: ApprovalId, approver: UserId, now: Time)
    requires id in t.approvals && t.approvals[id].arguments.TargetUser?
  {
    var row := t.approvals[id];
    var g := Grant(row.arguments.user, "support_agent");
    var changed := g !in t.grants;
    && t'.approvals == t.approvals[id := row.(status := Executed, decidedBy := Some(approver), decidedAt := Some(now),
                                              executedAt := Some(now))]
    && t'.grants.Keys == t.grants.Keys + {g} && t'.users == t.users
    && t'.audit == t.audit + [[RoleAssigned(approver, g, changed),
                               ApprovalExecuted(approver, id, if changed then Assigned else AlreadyAssigned)]]
  }

  /** The call of `s` has ended, its outcome and the tables it leaves. */
  predicate EndsAs(w: World, s: SessionId, outcome: Outcome, t: Tables) {
    s in w.calls && w.calls[s].phase == Finished(outcome) && w.tables == t
  }

  lemma JudgedExactly(w: World, registry: Registry, id: ApprovalId, approver: UserId)
    ensures Judge(w, registry, id, approver).Executes? <==> MayExecute(w, registry, id, approver)
    ensures MayExecute(w, registry, id, approver) ==>
              var row := w.tables.approvals[id];
              Judge(w, registry, id, approver) == Executes(row, Grant(row.arguments.user, "support_agent"))
  {
    PermissionIsRole(w, approver, "approval:decide");
    if id in w.tables.approvals {
      var row := w.tables.approvals[id];
      LookupExactly(registry, row.tool, row.arguments);
      if Approvable(registry, row.tool, row.arguments) {
        PermissionIsRole(w, row.requester, registry[row.tool].permission);
        match registry[row.tool].approvalExecutor.value
        case GrantSupportAgentRole =>
        case OtherExecutor =>
      }
    }
  }

  lemma ExecutionTables(t: Tables, id: ApprovalId, approver: UserId, now: Time)
    requires id in t.approvals && t.approvals[id].arguments.TargetUser?
    ensures
      var row := t.approvals[id];
      var g := Grant(row.arguments.user, "support_agent");
      ExecutedIn(t, Install(t, ExecuteWrites(id, row, approver, now, g, g !in t.grants)), id, approver, now)
  {
  }

  /**
   * Undisturbed, approve executes exactly when everything it asks is so, and then commits the row, the role and both
   * events; in every other case it ends with an error and no role is given.
   */
  lemma ApproveExecutesExactly(w: World, s: SessionId, registry: Registry, id: ApprovalId, approver: UserId)
    requires s in w.calls && w.calls[s].phase == Begin && w.calls[s].request == Approve(registry, id, approver)
    ensures s in Settle(w, s, 8).calls && Settle(w, s, 8).calls[s].phase.Finished?
    ensures
      var w' := Settle(w, s, 8);
      if MayExecute(w, registry, id, approver) then
        w'.calls[s].phase.outcome.Snapshot? && ExecutedIn(w.tables, w'.tables, id, approver, w.clock)
      else
        w'.calls[s].phase.outcome.Failed? && w'.tables.grants == w.tables.grants
  {
    ApproveAlone(w, s, registry, id, approver);
    JudgedExactly(w, registry, id, approver);
    if MayExecute(w, registry, id, approver) {
      ExecutionTables(w.tables, id, approver, w.clock);
    }
  }

  /** Undisturbed, a decision by a user none of whose roles has approval:decide is refused and changes nothing. */
  lemma UndecidingIsRefused(w: World, s: SessionId, id: ApprovalId)
    requires s in w.calls && w.calls[s].phase == Begin && DecidedRow(w.calls[s].request) == Some(id)
    requires id in w.tables.approvals && !Holds(w, w.calls[s].request.approver, "approval:decide")
    ensures EndsAs(Settle(w, s, 8), s, Failed(PermissionDenied), w.tables)
  {
    var r := w.calls[s].request;
    PermissionIsRole(w, r.approver, "approval:decide");
    if r.Approve? {
      ApproveAlone(w, s, r.registry, id, r.approver);
    } else {
      RejectAlone(w, s, r.registry, id, r.approver);
      SettledStays(w, s, 5, 8);
    }
  }

  /** A call that has ended stays as it is. */
  lemma {:induction false} SettledStays(w: World, s: SessionId, m: nat, n: nat)
    requires m <= n && s in Settle(w, s, m).calls && Settle(w, s, m).calls[s].phase.Finished?
    ensures Settle(w, s, n) == Settle(w, s, m)
    decreases m
  {
    if m > 0 && Running(w, s) {
      SettledStays(NextStep(w, s), s, m - 1, n - 1);
    }
  }

  // ---------------------------------------------------------------- reject and request_action

  ghost predicate MayReject(w: World, registry: Registry, id: ApprovalId, approver: UserId) {
    && id in w.tables.approvals && Holds(w, approver, "approval:decide")
    && var row := w.tables.approvals[id];
    row.status == Pending && w.clock < row.expiresAt && Approvable(registry, row.tool, row.arguments)
  }

  /** Undisturbed, reject rejects exactly when everything it asks is so, and then commits the row and its event. */
  lemma RejectRejectsExactly(w: World, s: SessionId, registry: Registry, id: ApprovalId, approver: UserId)
    requires s in w.calls && w.calls[s].phase == Begin && w.calls[s].request == Reject(registry, id, approver)
    ensures s in Settle(w, s, 5).calls && Settle(w, s, 5).calls[s].phase.Finished?
    ensures
      var w' := Settle(w, s, 5);
      if MayReject(w, registry, id, approver) then
        && w'.calls[s].phase.outcome.Snapshot?
        && w'.tables == w.tables.(
             approvals := w.tables.approvals[id := w.tables.approvals[id].(
               status := Rejected, decidedBy := Some(approver), decidedAt := Some(w.clock))],
             audit := w.tables.audit + [[ApprovalRejected(approver, id)]])
      else
        w'.calls[s].phase.outcome.Failed?
  {
    RejectAlone(w, s, registry, id, approver);
    PermissionIsRole(w, approver, "approval:decide");
    if id in w.tables.approvals {
      LookupExactly(registry, w.tables.approvals[id].tool, w.tables.approvals[id].arguments);
    }
  }

  /** The row of a new request: it expires fifteen minutes, in microseconds, after the clock reading. */
  function NewRow(actor: UserId, tool: string, arguments: Arguments, now: Time): Approval {
    Approval(actor, tool, arguments, Pending, now + 900_000_000, None, None, None)
  }

  lemma RequestBuffers(w: World, s: SessionId)
    requires s in w.calls && w.calls[s].phase == ActionAllowed && w.calls[s].request.RequestAction?
    requires w.calls[s].held == None && w.calls[s].key == None
    ensures
      var r := w.calls[s].request;
      var row := NewRow(r.actor, r.tool, r.arguments, w.clock);
      EndsAs(Settle(w, s, 2), s, Snapshot(r.newId, row),
             w.tables.(approvals := w.tables.approvals[r.newId := row],
                       audit := w.tables.audit + [[ApprovalRequested(r.actor, r.newId)]]))
  {
    var w1 := NextStep(w, s);
    var w2 := NextStep(w1, s);
    assert Settle(w, s, 2) == Settle(w1, s, 1) == Settle(w2, s, 0) == w2;
  }

  /**
   * Undisturbed, request_action creates the pending row and its event exactly when the tool is approvable with these
   * arguments and a role of the caller has the tool's permission; otherwise it changes nothing and says why.
   */
  lemma RequestsExactly(w: World, s: SessionId)
    requires s in w.calls && w.calls[s].request.RequestAction?
    requires w.calls[s] == Call(w.calls[s].request, Begin, None, None, NO_WRITES)
    ensures
      var r := w.calls[s].request;
      if !Approvable(r.registry, r.tool, r.arguments) then
        EndsAs(Settle(w, s, 3), s, Failed(LookupActionTool(r.registry, r.tool, r.arguments).error), w.tables)
      else if !Holds(w, r.actor, r.registry[r.tool].permission) then
        EndsAs(Settle(w, s, 3), s, Failed(ToolPermissionDenied), w.tables)
      else
        var row := NewRow(r.actor, r.tool, r.arguments, w.clock);
        EndsAs(Settle(w, s, 3), s, Snapshot(r.newId, row),
               w.tables.(approvals := w.tables.approvals[r.newId := row],
                         audit := w.tables.audit + [[ApprovalRequested(r.actor, r.newId)]]))
  {
    var r := w.calls[s].request;
    var w1 := NextStep(w, s);
    LookupExactly(r.registry, r.tool, r.arguments);
    if !Approvable(r.registry, r.tool, r.arguments) {
      assert Settle(w, s, 3) == Settle(w1, s, 2) == w1;
    } else {
      PermissionIsRole(w, r.actor, r.registry[r.tool].permission);
      if Holds(w, r.actor, r.registry[r.tool].permission) {
        RequestBuffers(w1, s);
      } else {
        FromUnwinding(w1, s, 2, Failed(ToolPermissionDenied));
      }
    }
  }
}
