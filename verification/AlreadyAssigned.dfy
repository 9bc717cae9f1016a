/** What an execution that found the role already assigned promises at its commit, over whole runs. */
module AlreadyAssigned {
  import opened Wrappers
  import opened ApprovalTypes
  import opened ApprovalMachine
  import opened AuditTrail
  import opened ApprovalInvariant
  import opened ApprovalTheorems
  import opened ApprovalAuthority

  /** The trail grew by a batch with this event. */
  predicate Records(t: Tables, t': Tables, e: AuditEvent) {
    |t.audit| < |t'.audit| && e in t'.audit[|t.audit|]
  }

  /** Step `m` of the run commits a new assignment of `g`. */
  ghost predicate AssignsAt(ws: seq<World>, m: nat, g: Grant)
    requires m + 1 < |ws|
  {
    exists actor :: Records(ws[m].tables, ws[m + 1].tables, RoleAssigned(actor, g, true))
  }

  /** Step `m` of the run commits the removal of `g`. */
  ghost predicate RemovesAt(ws: seq<World>, m: nat, g: Grant)
    requires m + 1 < |ws|
  {
    exists actor :: Records(ws[m].tables, ws[m + 1].tables, RoleRemoved(actor, g, true))
  }

  ghost predicate AssignedAgain(ws: seq<World>, m: nat, j: nat, g: Grant)
    requires j < |ws|
  {
    exists m': nat :: m < m' < j && AssignsAt(ws, m', g)
  }

  /** Every removal of `g` committed between states `i` and `j` is followed by an assignment committed before `j`. */
  ghost predicate NoLastingRemoval(ws: seq<World>, i: nat, j: nat, g: Grant)
    requires j < |ws|
  {
    forall m: nat :: i <= m < j && RemovesAt(ws, m, g) ==> AssignedAgain(ws, m, j, g)
  }

  // ---------------------------------------------------------------- one step

  lemma InstallRecords(t: Tables, ws: Writes, e: AuditEvent)
    ensures Records(t, Install(t, ws), e) <==> e in ws.events
  {
  }

  /** For a user that exists, the role table changes exactly with the recorded assignments and removals. */
  lemma InstallChanges(t: Tables, ws: Writes, g: Grant)
    requires Sound(t, ws) && g.user in t.users
    ensures
      var assigns := exists actor :: RoleAssigned(actor, g, true) in ws.events;
      var removes := exists actor :: RoleRemoved(actor, g, true) in ws.events;
      g in Install(t, ws).grants <==> assigns || (g in t.grants && !removes)
  {
    match ws.grant
    case NoGrant =>
    case Insert(h) =>
      if h == g {
        assert ws.events[0] == RoleAssigned(ws.events[0].actor, g, true);
      }
    case Delete(h) =>
      if h == g {
        assert ws.events[0] == RoleRemoved(ws.events[0].actor, g, true);
      }
  }

  /** What a step records is what its session had buffered in a sound transaction. */
  lemma RecordsAreBuffered(w: World, a: Action, e: AuditEvent)
    requires Inv(w) && Allowed(w, a) && Records(w.tables, Apply(w, a).tables, e)
    ensures Commits(w, a) && Sound(w.tables, w.calls[a.session].writes) && e in w.calls[a.session].writes.events
  {
    StepTables(w, a);
    InstallRecords(w.tables, w.calls[a.session].writes, e);
  }

  lemma StepChanges(ws: seq<World>, m: nat, g: Grant)
    requires Run(ws) && m + 1 < |ws| && g.user in ws[m].tables.users
    ensures g in ws[m + 1].tables.grants <==> AssignsAt(ws, m, g) || (g in ws[m].tables.grants && !RemovesAt(ws, m, g))
  {
    RunStep(ws, m);
    var a := StepAction(ws[m], ws[m + 1]);
    StepTables(ws[m], a);
    if Commits(ws[m], a) {
      var writes := ws[m].calls[a.session].writes;
      InstallChanges(ws[m].tables, writes, g);
      forall e ensures Records(ws[m].tables, ws[m + 1].tables, e) <==> e in writes.events {
        InstallRecords(ws[m].tables, writes, e);
      }
    }
  }

  // ---------------------------------------------------------------- the history of one grant

  lemma NoRemovalYet(ws: seq<World>, i: nat, g: Grant)
    requires i < |ws|
    ensures NoLastingRemoval(ws, i, i, g)
  {
  }

  lemma OneMoreStep(ws: seq<World>, i: nat, j: nat, g: Grant)
    requires i <= j && j + 1 < |ws|
    requires !(AssignsAt(ws, j, g) && RemovesAt(ws, j, g))
    ensures NoLastingRemoval(ws, i, j + 1, g) <==>
            AssignsAt(ws, j, g) || (NoLastingRemoval(ws, i, j, g) && !RemovesAt(ws, j, g))
  {
    var n := j + 1;
    if AssignsAt(ws, j, g) {
      forall m: nat | i <= m < n && RemovesAt(ws, m, g) ensures AssignedAgain(ws, m, n, g) {
        assert m < j;
      }
    } else {
      forall m: nat ensures m < j && AssignedAgain(ws, m, n, g) ==> AssignedAgain(ws, m, j, g) {
        if m < j && AssignedAgain(ws, m, n, g) {
          var m': nat :| m < m' < n && AssignsAt(ws, m', g);
          assert m' < j;
        }
      }
      forall m: nat ensures m < j && AssignedAgain(ws, m, j, g) ==> AssignedAgain(ws, m, n, g) {
        if m < j && AssignedAgain(ws, m, j, g) {
          var m': nat :| m < m' < j && AssignsAt(ws, m', g);
          assert m' < n;
        }
      }
      assert !AssignedAgain(ws, j, n, g);
    }
  }

  lemma OneRoleEvent(t: Tables, ws: Writes, g: Grant, a: UserId, b: UserId)
    requires Sound(t, ws)
    ensures !(RoleAssigned(a, g, true) in ws.events && RoleRemoved(b, g, true) in ws.events)
  {
  }

  /** One transaction does not both assign and remove a role. */
  lemma NotBoth(ws: seq<World>, m: nat, g: Grant)
    requires Run(ws) && m + 1 < |ws|
    ensures !(AssignsAt(ws, m, g) && RemovesAt(ws, m, g))
  {
    if AssignsAt(ws, m, g) && RemovesAt(ws, m, g) {
      var a :| Records(ws[m].tables, ws[m + 1].tables, RoleAssigned(a, g, true));
      var b :| Records(ws[m].tables, ws[m + 1].tables, RoleRemoved(b, g, true));
      RunStep(ws, m);
      var action := StepAction(ws[m], ws[m + 1]);
      RecordsAreBuffered(ws[m], action, RoleAssigned(a, g, true));
      RecordsAreBuffered(ws[m], action, RoleRemoved(b, g, true));
      OneRoleEvent(ws[m].tables, ws[m].calls[action.session].writes, g, a, b);
    }
  }

  /** A role in the table at state `i` is there at state `j` exactly when no removal in between was left standing. */
  lemma {:induction false} GrantHistory(ws: seq<World>, i: nat, j: nat, g: Grant)
    requires Run(ws) && i <= j < |ws| && g in ws[i].tables.grants
    ensures g in ws[j].tables.grants <==> NoLastingRemoval(ws, i, j, g)
    decreases j
  {
    if i == j {
      NoRemovalYet(ws, i, g);
    } else {
      var k := j - 1;
      GrantHistory(ws, i, k, g);
      HolderExists(ws, i, k, g);
      StepChanges(ws, k, g);
      NotBoth(ws, k, g);
      OneMoreStep(ws, i, k, g);
    }
  }

  lemma HolderExists(ws: seq<World>, i: nat, j: nat, g: Grant)
    requires Run(ws) && i <= j < |ws| && g in ws[i].tables.grants
    ensures g.user in ws[j].tables.users
  {
    RunInv(ws, i);
    RunEvolves(ws, i, j);
  }

  // ---------------------------------------------------------------- the insert behind an execution

  /** Step `k` is session `s`'s insert of the approved grant, and `s` has stood still from then to state `n`. */
  predicate InsertedAt(ws: seq<World>, k: nat, n: nat, s: SessionId, g: Grant)
    requires k < n < |ws|
  {
    && s in ws[k].calls && ws[k].calls[s].phase.Granting? && ws[k].calls[s].phase.grant == g
    && ws[k + 1] == NextStep(ws[k], s)
    && forall m | k < m <= n :: s in ws[m].calls && ws[m].calls[s] == ws[k + 1].calls[s]
  }

  /** Session `s` has an execution buffered. */
  predicate Executing(w: World, s: SessionId) {
    && s in w.calls && w.calls[s].phase.Writing?
    && w.calls[s].writes.approval.Some? && w.calls[s].writes.approval.value.1.status == Executed
  }

  /** Only the insert of the approved grant buffers an execution. */
  lemma OnlyInsertExecutes(w: World, s: SessionId)
    requires s in w.calls && CallOk(w.tables, w.clock, w.calls[s]) && Executing(NextStep(w, s), s)
    ensures w.calls[s].phase.Granting?
  {
    match w.calls[s].phase
    case Begin => FirstStepPhase(w, s);
    case Authorised(row) => PendingPhase(w, s, row);
    case RoleTarget(g) => RolePhase(w, s, g, None);
    case Scanned(g, seen) => RolePhase(w, s, g, seen);
    case Granting(_, _, _) =>
    case _ => OtherStepsDoNot(w, s);
  }

  lemma OtherStepsDoNot(w: World, s: SessionId)
    requires s in w.calls && !w.calls[s].phase.Begin? && !w.calls[s].phase.Authorised?
    requires !w.calls[s].phase.RoleTarget? && !w.calls[s].phase.Scanned? && !w.calls[s].phase.Granting?
    requires w.calls[s].phase.ActionAllowed? ==> w.calls[s].request.RequestAction?
    requires w.calls[s].phase.RowRead? ==> w.calls[s].request.GetApproval?
    ensures !Executing(NextStep(w, s), s)
  {
  }

  /** What the insert buffers, for the table it found. */
  lemma InsertBuffers(w: World, s: SessionId)
    requires s in w.calls && w.calls[s].phase.Granting? && CallOk(w.tables, w.clock, w.calls[s])
    ensures
      var g, c := w.calls[s].phase.grant, NextStep(w, s).calls[s];
      && |c.writes.events| == 2 && c.writes.events[0].RoleAssigned? && c.writes.events[0].grant == g
      && c.writes.events[0].changed == (g !in w.tables.grants)
  {
  }

  lemma InsertedLater(ws: seq<World>, k: nat, n: nat, s: SessionId, g: Grant)
    requires k < n && n + 1 < |ws| && InsertedAt(ws, k, n, s, g)
    requires s in ws[n].calls && s in ws[n + 1].calls && ws[n + 1].calls[s] == ws[n].calls[s]
    ensures InsertedAt(ws, k, n + 1, s, g)
  {
  }

  lemma ExecutingBefore(w: World, a: Action, s: SessionId)
    requires Inv(w) && Allowed(w, a) && Executing(Apply(w, a), s)
    ensures s in w.calls
    ensures Apply(w, a).calls[s] == w.calls[s] || (a == Advance(s) && w.calls[s].phase.Granting?)
  {
    if s !in w.calls {
      NewcomerBegins(w, a, s);
    } else {
      ApplyCalls(w, a, s);
      if a == Advance(s) {
        assert CallOk(w.tables, w.clock, w.calls[s]);
        OnlyInsertExecutes(w, s);
      }
    }
  }

  /** The insert behind this execution is step `k`, and it found the table as its event says. */
  predicate Behind(ws: seq<World>, k: nat, n: nat, s: SessionId)
    requires n < |ws| && Executing(ws[n], s)
  {
    var events := ws[n].calls[s].writes.events;
    && k < n && |events| == 2 && events[0].RoleAssigned?
    && InsertedAt(ws, k, n, s, events[0].grant) && events[0].changed == (events[0].grant !in ws[k].tables.grants)
  }

  lemma BehindNow(ws: seq<World>, k: nat, s: SessionId)
    requires k + 1 < |ws| && s in ws[k].calls && ws[k].calls[s].phase.Granting? && ws[k + 1] == NextStep(ws[k], s)
    requires CallOk(ws[k].tables, ws[k].clock, ws[k].calls[s]) && Executing(ws[k + 1], s)
    ensures Behind(ws, k, k + 1, s)
  {
    InsertBuffers(ws[k], s);
  }

  lemma BehindLater(ws: seq<World>, k: nat, n: nat, s: SessionId)
    requires n + 1 < |ws| && Executing(ws[n], s) && Behind(ws, k, n, s)
    requires s in ws[n + 1].calls && ws[n + 1].calls[s] == ws[n].calls[s]
    ensures Behind(ws, k, n + 1, s)
  {
    InsertedLater(ws, k, n, s, ws[n].calls[s].writes.events[0].grant);
  }

  /** Behind every buffered execution is the insert statement of its session. */
  lemma {:induction false} InsertBehind(ws: seq<World>, n: nat, s: SessionId) returns (k: nat)
    requires Run(ws) && n < |ws| && Executing(ws[n], s)
    ensures Behind(ws, k, n, s)
    decreases n
  {
    assert n > 0;
    var m := n - 1;
    RunStep(ws, m);
    ExecutingBefore(ws[m], StepAction(ws[m], ws[n]), s);
    if ws[n].calls[s] == ws[m].calls[s] {
      k := InsertBehind(ws, m, s);
      BehindLater(ws, k, m, s);
    } else {
      k := m;
      assert CallOk(ws[k].tables, ws[k].clock, ws[k].calls[s]);
      BehindNow(ws, k, s);
    }
  }

  // ---------------------------------------------------------------- the exact condition

  /** Step `j` of the run commits an execution that reports the role `g` as already assigned. */
  predicate ReportsAssigned(ws: seq<World>, j: nat, actor: UserId, id: ApprovalId, g: Grant)
    requires j + 1 < |ws|
  {
    ws[j + 1].tables.audit
    == ws[j].tables.audit + [[RoleAssigned(actor, g, false), ApprovalExecuted(actor, id, AlreadyAssigned)]]
  }

  lemma ReporterCommits(ws: seq<World>, j: nat, actor: UserId, id: ApprovalId, g: Grant) returns (s: SessionId)
    requires Run(ws) && j + 1 < |ws| && ReportsAssigned(ws, j, actor, id, g)
    ensures Executing(ws[j], s) && ws[j].calls[s].held == Some(id)
    ensures |ws[j].calls[s].writes.events| > 0 && ws[j].calls[s].writes.events[0] == RoleAssigned(actor, g, false)
    ensures ws[j + 1].tables.grants == ws[j].tables.grants
  {
    RunStep(ws, j);
    var a := StepAction(ws[j], ws[j + 1]);
    RecordsAreBuffered(ws[j], a, ApprovalExecuted(actor, id, AlreadyAssigned));
    StepTables(ws[j], a);
    s := a.session;
    assert ws[j + 1].tables.audit[|ws[j].tables.audit|] == ws[j].calls[s].writes.events;
  }

  /**
   * An execution that reports already_assigned found the role in the table at its insert statement. The role is still
   * there when the execution commits exactly when no removal committed in between was left standing.
   */
  lemma AssignedUnlessRemoved(ws: seq<World>, j: nat, actor: UserId, id: ApprovalId, g: Grant)
    returns (s: SessionId, k: nat)
    requires Run(ws) && j + 1 < |ws| && ReportsAssigned(ws, j, actor, id, g)
    ensures k < j && Executing(ws[j], s) && ws[j].calls[s].held == Some(id)
    ensures InsertedAt(ws, k, j, s, g) && g in ws[k].tables.grants
    ensures g in ws[j + 1].tables.grants <==> NoLastingRemoval(ws, k, j, g)
  {
    s := ReporterCommits(ws, j, actor, id, g);
    k := InsertBehind(ws, j, s);
    GrantHistory(ws, k, j, g);
  }
}
