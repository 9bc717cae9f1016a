/** What holds in every committed state of every run of the approval and role services. */
module ApprovalTheorems {
  import opened Wrappers
  import opened ApprovalTypes
  import opened ApprovalMachine
  import opened AuditTrail
  import opened ApprovalInvariant

  ghost function StepAction(w: World, w': World): (a: Action)
    requires Step(w, w')
    ensures Allowed(w, a) && w' == Apply(w, a)
  {
    var a :| Allowed(w, a) && w' == Apply(w, a); a
  }

  lemma RunStep(ws: seq<World>, i: nat)
    requires Run(ws) && i + 1 < |ws|
    ensures Inv(ws[i]) && Step(ws[i], ws[i + 1])
  {
    assert StepAt(ws, i);
    RunInv(ws, i);
  }

  // ---------------------------------------------------------------- the trail against the tables

  /** In every reachable state the trail replays to exactly the committed role table. */
  lemma {:induction false} RolesRebuiltFromAudit(ws: seq<World>, i: nat)
    requires Run(ws) && i < |ws|
    ensures RolesReplayed(ws[0].tables, ws[i].tables)
  {
    if i == 0 {
      assert DefaultGrants(ws[0].tables, ws[0].tables) == {};
      assert ws[0].tables.grants.Keys + {} == ws[0].tables.grants.Keys;
    } else {
      RolesRebuiltFromAudit(ws, i - 1);
      RunStep(ws, i - 1);
      var a := StepAction(ws[i - 1], ws[i]);
      StepTables(ws[i - 1], a);
      if Commits(ws[i - 1], a) {
        InstallKeepsReplay(ws[0].tables, ws[i - 1].tables, ws[i - 1].calls[a.session].writes);
      }
    }
  }

  /** In every reachable state each approval's trail is its request and then its one matching ending. */
  lemma AuditAgreesWithApprovals(ws: seq<World>, i: nat, id: ApprovalId)
    requires Run(ws) && i < |ws|
    ensures Lifecycle(ws[i].tables, id)
    ensures id in ws[i].tables.approvals ==> RowOk(ws[i].tables.approvals[id])
  {
    RunInv(ws, i);
  }

  /** Each approval.executed was committed with one rbac.role.assign whose flag matches its result. */
  lemma ExecutionsCarryTheirGrant(ws: seq<World>, i: nat, n: nat, k: nat)
    requires Run(ws) && i < |ws| && n < |ws[i].tables.audit| && k < |ws[i].tables.audit[n]|
    requires ws[i].tables.audit[n][k].ApprovalExecuted?
    ensures ExecutionBatch(ws[i].tables.approvals, ws[i].tables.audit[n], k)
  {
    RunInv(ws, i);
    assert BatchOk(ws[i].tables.approvals, ws[i].tables.users, ws[i].tables.audit[n]);
  }

  // ---------------------------------------------------------------- decided once

  lemma EvolvesTrans(a: Tables, b: Tables, c: Tables)
    requires Evolves(a, b) && Evolves(b, c)
    ensures Evolves(a, c)
  {
  }

  lemma StepEvolves(w: World, w': World)
    requires Inv(w) && Step(w, w')
    ensures Evolves(w.tables, w'.tables)
  {
    var a := StepAction(w, w');
    StepTables(w, a);
    if Commits(w, a) {
      InstallEvolves(w.tables, w.calls[a.session].writes);
    }
  }

  lemma RunStepEvolves(ws: seq<World>, i: nat)
    requires Run(ws) && i + 1 < |ws|
    ensures Evolves(ws[i].tables, ws[i + 1].tables)
  {
    RunStep(ws, i);
    StepEvolves(ws[i], ws[i + 1]);
  }

  lemma {:induction false} RunEvolves(ws: seq<World>, i: nat, j: nat)
    requires Run(ws) && i <= j < |ws|
    ensures Evolves(ws[i].tables, ws[j].tables)
    decreases j
  {
    if i < j {
      RunEvolves(ws, i, j - 1);
      RunStepEvolves(ws, j - 1);
      EvolvesTrans(ws[i].tables, ws[j - 1].tables, ws[j].tables);
    }
  }

  predicate PendingAt(w: World, id: ApprovalId) {
    id in w.tables.approvals && w.tables.approvals[id].status == Pending
  }

  /** Step `i` of the run takes approval `id` out of pending. */
  predicate Leaves(ws: seq<World>, i: nat, id: ApprovalId)
    requires i + 1 < |ws|
  {
    PendingAt(ws[i], id) && !PendingAt(ws[i + 1], id)
  }

  lemma LeavesPendingOnce(ws: seq<World>, i: nat, j: nat, id: ApprovalId)
    requires Run(ws) && i + 1 < |ws| && j + 1 < |ws| && Leaves(ws, i, id) && Leaves(ws, j, id)
    ensures i == j
  {
    RunEvolves(ws, i, i + 1);
    RunEvolves(ws, j, j + 1);
    if i < j {
      RunEvolves(ws, i + 1, j);
    } else if j < i {
      RunEvolves(ws, j + 1, i);
    }
  }

  /** What an execution adds to the committed tables. */
  predicate ExecutionEffect(t: Tables, t': Tables, id: ApprovalId, changed: bool) {
    && id in t'.approvals
    && var row := t'.approvals[id];
    && row.status == Executed && row.arguments.TargetUser? && row.decidedBy.Some?
    && var g := Grant(row.arguments.user, SUPPORT_ROLE);
    && (changed ==> g !in t.grants)
    && t'.grants.Keys == (if changed then t.grants.Keys + {g} else t.grants.Keys)
    && t'.audit == t.audit + [[RoleAssigned(row.decidedBy.value, g, changed),
                               ApprovalExecuted(row.decidedBy.value, id, ResultOf(changed))]]
    && t'.approvals == t.approvals[id := row]
    && t'.users == t.users
  }

  lemma ExecutionInstalls(t: Tables, ws: Writes)
    requires IsExecution(t, ws)
    ensures ExecutionEffect(t, Install(t, ws), ws.approval.value.0, ws.events[0].changed)
  {
    var row := ws.approval.value.1;
    assert ws.events == [RoleAssigned(row.decidedBy.value, Grant(row.arguments.user, SUPPORT_ROLE),
          ws.events[0].changed),
                         ApprovalExecuted(row.decidedBy.value, ws.approval.value.0, ResultOf(ws.events[0].changed))];
  }

  lemma OnlyExecutionExecutes(t: Tables, ws: Writes, id: ApprovalId)
    requires Sound(t, ws) && id in t.approvals && t.approvals[id].status == Pending
    requires Install(t, ws).approvals[id].status == Executed
    ensures IsExecution(t, ws) && ws.approval.value.0 == id
  {
  }

  lemma ExecutingStep(w: World, a: Action, id: ApprovalId) returns (changed: bool)
    requires Inv(w) && Allowed(w, a) && PendingAt(w, id)
    requires id in Apply(w, a).tables.approvals && Apply(w, a).tables.approvals[id].status == Executed
    ensures ExecutionEffect(w.tables, Apply(w, a).tables, id, changed)
  {
    StepTables(w, a);
    var writes := w.calls[a.session].writes;
    OnlyExecutionExecutes(w.tables, writes, id);
    ExecutionInstalls(w.tables, writes);
    changed := writes.events[0].changed;
  }

  /**
   * The step that executes an approval commits its grant and both audit events, and nothing else.
   * When the executor found the role already assigned it holds no lock on it: the grant is not rewritten.
   */
  lemma ExecutionIsAtomic(ws: seq<World>, i: nat, id: ApprovalId) returns (changed: bool)
    requires Run(ws) && i + 1 < |ws| && PendingAt(ws[i], id)
    requires id in ws[i + 1].tables.approvals && ws[i + 1].tables.approvals[id].status == Executed
    ensures ExecutionEffect(ws[i].tables, ws[i + 1].tables, id, changed)
  {
    RunStep(ws, i);
    changed := ExecutingStep(ws[i], StepAction(ws[i], ws[i + 1]), id);
  }

  /** A decision call changes a role only in the commit that executes its pending approval. */
  lemma ApprovedEffectsOnlyWithExecuted(w: World, a: Action)
    requires Inv(w) && Allowed(w, a) && Commits(w, a) && DecidedRow(w.calls[a.session].request).Some?
    requires Apply(w, a).tables.grants != w.tables.grants
    ensures
      var id := DecidedRow(w.calls[a.session].request).value;
      && w.calls[a.session].request.Approve?
      && PendingAt(w, id)
      && ExecutionEffect(w.tables, Apply(w, a).tables, id, true)
  {
    StepTables(w, a);
    var writes := w.calls[a.session].writes;
    assert !IsClosing(w.tables, writes);
    ExecutionInstalls(w.tables, writes);
  }

  /** Whatever happens in a `get` call, it changes no table, and it never holds a row. */
  lemma ReportsChangeNothing(w: World, a: Action)
    requires Inv(w) && Allowed(w, a) && !a.Tick? && !a.Open? && w.calls[a.session].request.GetApproval?
    ensures Apply(w, a).tables == w.tables
    ensures forall id :: id in w.rowLocks ==> w.rowLocks[id] != a.session
  {
    StepTables(w, a);
    assert CallOk(w.tables, w.clock, w.calls[a.session]);
    assert RowLocksOk(w);
  }

  /** A fault at any step, and the rollback that follows it, change no table and leave no lock. */
  lemma FaultLeavesNothing(w: World, s: SessionId)
    requires Inv(w) && Allowed(w, Fault(s))
    ensures
      var w1 := Apply(w, Fault(s));
      && w1.tables == w.tables && Allowed(w1, Advance(s))
      && var w2 := Apply(w1, Advance(s));
      && w2.tables == w.tables && w2.calls[s].phase == Finished(Failed(Unavailable))
      && (forall id :: id in w2.rowLocks ==> w2.rowLocks[id] != s)
      && (forall g :: g in w2.keyLocks ==> w2.keyLocks[g] != s)
  {
    ApplyKeeps(w, Fault(s));
    ApplyKeeps(Apply(w, Fault(s)), Advance(s));
    var w2 := Apply(Apply(w, Fault(s)), Advance(s));
    assert RowLocksOk(w2) && KeyLocksOk(w2);
  }
}
