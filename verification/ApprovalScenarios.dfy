/** Two short runs from a start with one administrator: a report of expiry overturned, and a stale already_assigned. */
module ApprovalScenarios {
  import opened Wrappers
  import opened ApprovalTypes
  import opened ApprovalMachine
  import opened AuditTrail
  import opened ApprovalInvariant
  import opened ApprovalTheorems
  import opened ApprovalProgress
  import opened ApprovalAuthority
  import opened ApprovalRuns
  import opened ApprovalAlone
  import opened ApprovalExpiry
  import Runs

  // ---------------------------------------------------------------- runs from reachable worlds

  lemma RunOf(w: World, w': World) returns (ws: seq<World>)
    requires Initial(w) && Reaches(w, w')
    ensures Run(ws) && ws[0] == w && ws[|ws| - 1] == w'
  {
    var steps :| Runs.Follows(Steps(), w, steps, w');
    Runs.FollowsLinks(Steps(), w, steps, w');
    ws := [w] + steps;
    forall i: nat | i + 1 < |ws| ensures StepAt(ws, i) {
      assert Runs.LinkedAt(Steps(), ws, i);
    }
  }

  lemma Extend(ws: seq<World>, a: Action) returns (more: seq<World>)
    requires Run(ws) && Allowed(ws[|ws| - 1], a)
    ensures Run(more) && more == ws + [Apply(ws[|ws| - 1], a)]
  {
    more := ws + [Apply(ws[|ws| - 1], a)];
    forall i: nat | i + 1 < |more| ensures StepAt(more, i) {
      if i + 1 < |ws| {
        assert StepAt(ws, i);
      } else {
        assert Step(ws[|ws| - 1], Apply(ws[|ws| - 1], a));
      }
    }
  }

  /** A run that ends with this step. */
  lemma RunWith(w0: World, w: World, a: Action, w': World) returns (ws: seq<World>, n: nat)
    requires Initial(w0) && Reaches(w0, w) && Allowed(w, a) && w' == Apply(w, a)
    ensures Run(ws) && n + 1 < |ws| && ws[n] == w && ws[n + 1] == w'
  {
    var start := RunOf(w0, w);
    n := |start| - 1;
    ws := Extend(start, a);
  }

  lemma AdvancesTwice(ws: seq<World>, w: World, s: SessionId, s': SessionId) returns (more: seq<World>)
    requires Run(ws) && w == ws[|ws| - 1] && Allowed(w, Advance(s)) && Allowed(NextStep(w, s), Advance(s'))
    ensures Run(more) && |more| == |ws| + 2 && more[|ws| - 1] == w && more[|ws|] == NextStep(w, s)
    ensures more[|ws| + 1] == NextStep(more[|ws|], s')
  {
    var once := Extend(ws, Advance(s));
    more := Extend(once, Advance(s'));
  }

  // ---------------------------------------------------------------- one call's way to a given step

  /** From `w` to `w'` only `s` moved: it is now `c`, and locks and tables are as given. */
  ghost predicate Came(w: World, w': World, s: SessionId, c: Call, tables: Tables) {
    && Reaches(w, w') && SameRest(w, w') && w'.tables == tables && w'.calls == w.calls[s := c]
  }

  predicate SameRest(w: World, w': World) {
    w'.catalog == w.catalog && w'.clock == w.clock
  }

  lemma Opens(w: World, s: SessionId, r: Request) returns (w': World)
    requires Allowed(w, Open(s, r))
    ensures Came(w, w', s, Call(r, Begin, None, None, NO_WRITES), w.tables)
    ensures w'.rowLocks == w.rowLocks && w'.keyLocks == w.keyLocks
  {
    w' := Apply(w, Open(s, r));
    ReachesItself(w);
    ReachesStep(w, w, Open(s, r));
  }

  lemma Advances(w: World, w': World, s: SessionId)
    requires Reaches(w, w') && Running(w', s) && !Blocked(w', s)
    ensures Reaches(w, NextStep(w', s))
  {
    ReachesStep(w, w', Advance(s));
  }

  /** A request_action whose checks pass, up to its buffer. */
  lemma ComesToRequested(w: World, s: SessionId, r: Request) returns (w': World)
    requires Allowed(w, Open(s, r)) && r.RequestAction? && LookupActionTool(r.registry, r.tool, r.arguments).Ok?
    requires HasPermission(w, r.actor, LookupActionTool(r.registry, r.tool, r.arguments).value.permission)
    ensures Came(w, w', s, Call(r, ActionAllowed, None, None, NO_WRITES), w.tables)
    ensures w'.rowLocks == w.rowLocks && w'.keyLocks == w.keyLocks
  {
    var w1 := Opens(w, s, r);
    SamePermissions(w, w1);
    Advances(w, w1, s);
    w' := NextStep(w1, s);
    assert w' == Go(w1, s, ActionAllowed);
  }

  lemma RequestSteps(w: World, s: SessionId)
    requires s in w.calls && w.calls[s].phase == ActionAllowed && w.calls[s].request.RequestAction?
    requires w.calls[s].held == None && w.calls[s].key == None
    ensures
      var r := w.calls[s].request;
      var ws := RequestWrites(r.newId, r.actor, r.tool, r.arguments, w.clock);
      var o := Snapshot(r.newId, ws.approval.value.1);
      && NextStep(w, s) == Put(w, s, Call(r, Writing(o), None, None, ws))
      && NextStep(NextStep(w, s), s)
         == Put(w.(tables := Install(w.tables, ws)), s, Call(r, Finished(o), None, None, NO_WRITES))
  {
  }

  lemma ReachesTwice(w: World, w1: World, s: SessionId)
    requires Reaches(w, w1) && Running(w1, s) && !Blocked(w1, s)
    requires Running(NextStep(w1, s), s) && !Blocked(NextStep(w1, s), s)
    ensures Reaches(w, NextStep(NextStep(w1, s), s))
  {
    Advances(w, w1, s);
    Advances(w, NextStep(w1, s), s);
  }

  lemma RequestCommits(w: World, w1: World, s: SessionId) returns (w': World)
    requires Reaches(w, w1) && s in w1.calls && w1.calls[s].phase == ActionAllowed && w1.calls[s].request.RequestAction?
    requires w1.calls[s].held == None && w1.calls[s].key == None
    ensures Reaches(w, w')
    ensures
      var r := w1.calls[s].request;
      var ws := RequestWrites(r.newId, r.actor, r.tool, r.arguments, w1.clock);
      w' == Put(w1.(tables := Install(w1.tables, ws)), s,
                Call(r, Finished(Snapshot(r.newId, ws.approval.value.1)), None, None, NO_WRITES))
  {
    RequestSteps(w1, s);
    ReachesTwice(w, w1, s);
    w' := NextStep(NextStep(w1, s), s);
  }

  /** A permitted request_action, undisturbed. */
  lemma Requests(w: World, s: SessionId, r: Request) returns (w': World)
    requires Allowed(w, Open(s, r)) && r.RequestAction? && LookupActionTool(r.registry, r.tool, r.arguments).Ok?
    requires HasPermission(w, r.actor, LookupActionTool(r.registry, r.tool, r.arguments).value.permission)
    ensures
      var ws := RequestWrites(r.newId, r.actor, r.tool, r.arguments, w.clock);
      Came(w, w', s, Call(r, Finished(Snapshot(r.newId, ws.approval.value.1)), None, None, NO_WRITES),
           Install(w.tables, ws))
    ensures w'.rowLocks == w.rowLocks && w'.keyLocks == w.keyLocks
  {
    var w1 := ComesToRequested(w, s, r);
    w' := RequestCommits(w, w1, s);
  }

  /** Beside that the row lock is taken and no key lock. */
  ghost predicate Holds(w: World, w': World, s: SessionId, r: Request, phase: Phase) {
    && r.Approve? && Came(w, w', s, Call(r, phase, Some(r.id), None, NO_WRITES), w.tables)
    && w'.rowLocks == w.rowLocks[r.id := s] && w'.keyLocks == w.keyLocks
  }

  lemma ComesToLocked(w: World, s: SessionId, r: Request, row: Approval) returns (w': World)
    requires Allowed(w, Open(s, r)) && r.Approve? && r.id !in w.rowLocks
    requires r.id in w.tables.approvals && w.tables.approvals[r.id] == row
    ensures Holds(w, w', s, r, Locked(row))
  {
    var w1 := Opens(w, s, r);
    Advances(w, w1, s);
    w' := TakeRow(w1, s, r.id, row);
    assert NextStep(w1, s) == w';
  }

  lemma MovesOn(w: World, w': World, s: SessionId, r: Request, phase: Phase, phase': Phase)
    requires Holds(w, w', s, r, phase) && !phase.Finished? && !phase.Begin? && !Blocked(w', s)
    requires NextStep(w', s) == Go(w', s, phase')
    ensures Holds(w, NextStep(w', s), s, r, phase')
  {
    Advances(w, w', s);
  }

  lemma ComesToTimed(w: World, s: SessionId, r: Request, row: Approval) returns (w': World)
    requires Allowed(w, Open(s, r)) && r.Approve? && r.id !in w.rowLocks
    requires r.id in w.tables.approvals && w.tables.approvals[r.id] == row && HasPermission(w, r.approver, DECIDE)
    requires row.status == Pending && PendingTool(r.registry, row).Some? && w.clock < row.expiresAt
    ensures Holds(w, w', s, r, Timed(row, w.clock, PendingTool(r.registry, row).value))
  {
    var w1 := ComesToLocked(w, s, r, row);
    SamePermissions(w, w1);
    MovesOn(w, w1, s, r, Locked(row), Authorised(row));
    var w2 := NextStep(w1, s);
    MovesOn(w, w2, s, r, Authorised(row), Timed(row, w.clock, PendingTool(r.registry, row).value));
    w' := NextStep(w2, s);
  }

  lemma ComesToGranting(w: World, w1: World, s: SessionId, r: Request, row: Approval, tool: Tool, g: Grant)
    returns (w': World)
    requires Holds(w, w1, s, r, Timed(row, w.clock, tool)) && JudgeAction(w, row, tool) == Executes(row, g)
    ensures Holds(w, w', s, r, Granting(row, w.clock, g))
  {
    SamePermissions(w, w1);
    MovesOn(w, w1, s, r, Timed(row, w.clock, tool), Permitted(row, w.clock, tool));
    var w2 := NextStep(w1, s);
    MovesOn(w, w2, s, r, Permitted(row, w.clock, tool), Granting(row, w.clock, g));
    w' := NextStep(w2, s);
  }

  /** The call of an approve that has only its commit left. */
  function Executing(w: World, r: Request, row: Approval, g: Grant): Call
    requires r.Approve?
  {
    Call(r, Writing(Snapshot(r.id, ExecutedRow(row, r.approver, w.clock))), Some(r.id),
         if g in w.tables.grants then None else Some(g),
         ExecuteWrites(r.id, row, r.approver, w.clock, g, g !in w.tables.grants))
  }

  lemma InsertStep(w: World, s: SessionId, row: Approval, now: Time, g: Grant)
    requires s in w.calls && w.calls[s].phase == Granting(row, now, g) && w.calls[s].request.Approve?
    ensures
      var r, created := w.calls[s].request, g !in w.tables.grants;
      NextStep(w, s) == Buffer(w, s, ExecuteWrites(r.id, row, r.approver, now, g, created),
                               Snapshot(r.id, ExecutedRow(row, r.approver, now)))
  {
  }

  lemma BufferedExecution(w: World, w1: World, s: SessionId, r: Request, row: Approval, g: Grant)
    requires r.Approve? && w1.calls == w.calls[s := Call(r, Granting(row, w.clock, g), Some(r.id), None, NO_WRITES)]
    requires w1.tables == w.tables && SameRest(w, w1) && w1.keyLocks == w.keyLocks
    ensures
      var w' := Buffer(w1, s, ExecuteWrites(r.id, row, r.approver, w.clock, g, g !in w.tables.grants),
                       Snapshot(r.id, ExecutedRow(row, r.approver, w.clock)));
      && w'.calls == w.calls[s := Executing(w, r, row, g)] && w'.tables == w.tables && SameRest(w, w')
      && w'.rowLocks == w1.rowLocks
      && w'.keyLocks == if g in w.tables.grants then w.keyLocks else w.keyLocks[g := s]
  {
  }

  lemma ComesToWriting(w: World, w1: World, s: SessionId, r: Request, row: Approval, g: Grant) returns (w': World)
    requires Holds(w, w1, s, r, Granting(row, w.clock, g)) && g !in w.keyLocks
    ensures Came(w, w', s, Executing(w, r, row, g), w.tables)
    ensures w'.rowLocks == w.rowLocks[r.id := s]
    ensures w'.keyLocks == if g in w.tables.grants then w.keyLocks else w.keyLocks[g := s]
  {
    Advances(w, w1, s);
    InsertStep(w1, s, row, w.clock, g);
    BufferedExecution(w, w1, s, r, row, g);
    w' := NextStep(w1, s);
  }

  /** An approve whose checks all pass, undisturbed, up to its commit. */
  lemma ApprovesUpToCommit(w: World, s: SessionId, r: Request, row: Approval, g: Grant) returns (w': World)
    requires Allowed(w, Open(s, r)) && r.Approve? && Judge(w, r.registry, r.id, r.approver) == Executes(row, g)
    requires r.id !in w.rowLocks && g !in w.keyLocks
    ensures Came(w, w', s, Executing(w, r, row, g), w.tables)
    ensures w'.rowLocks == w.rowLocks[r.id := s]
    ensures w'.keyLocks == if g in w.tables.grants then w.keyLocks else w.keyLocks[g := s]
  {
    var w1 := ComesToTimed(w, s, r, row);
    var w2 := ComesToGranting(w, w1, s, r, row, PendingTool(r.registry, row).value, g);
    w' := ComesToWriting(w, w2, s, r, row, g);
  }

  // ---------------------------------------------------------------- the start

  const ADMIN := "admin"
  const TOOL := "promote_to_support_agent"
  const REGISTRY: Registry := map[TOOL := Tool("support:promote", ApprovalRequired, Some(GrantSupportAgentRole))]
  const ROW := Approval(1, TOOL, TargetUser(1), Pending, TTL, None, None, None)

  /** One user, who may request and decide, and who may hold the support role already. */
  function Start(promoted: bool): World {
    var held := map[Grant(1, ADMIN) := 0];
    World(Tables(map[], if promoted then held[Grant(1, SUPPORT_ROLE) := 1] else held, 2, {1}, []),
          map[ADMIN := {"support:promote", DECIDE}, SUPPORT_ROLE := {}], 0, map[], map[], map[])
  }

  lemma AdministratorMay(w: World)
    requires w.catalog == Start(true).catalog && Grant(1, ADMIN) in w.tables.grants
    ensures HasPermission(w, 1, DECIDE) && HasPermission(w, 1, "support:promote")
  {
    assert ADMIN in w.catalog;
  }

  lemma RequestAtStart(promoted: bool) returns (w: World)
    ensures Initial(Start(promoted)) && Reaches(Start(promoted), w) && SameRest(Start(promoted), w)
    ensures w.tables == Install(Start(promoted).tables, RequestWrites(7, 1, TOOL, TargetUser(1), 0))
    ensures w.rowLocks == map[] && w.keyLocks == map[] && w.calls.Keys == {0} && w.calls[0].request.RequestAction?
  {
    var w0 := Start(promoted);
    AdministratorMay(w0);
    w := Requests(w0, 0, RequestAction(REGISTRY, 1, TOOL, TargetUser(1), 7));
  }

  const APPROVE := Approve(REGISTRY, 7, 1)
  const PROMOTED := Grant(1, SUPPORT_ROLE)

  /** The administrator requests its own promotion and approves it, up to the commit. */
  lemma UpToCommit(promoted: bool) returns (w: World)
    ensures Initial(Start(promoted)) && Reaches(Start(promoted), w) && SameRest(Start(promoted), w)
    ensures w.tables == Install(Start(promoted).tables, RequestWrites(7, 1, TOOL, TargetUser(1), 0))
    ensures w.calls.Keys == {0, 1} && w.calls[1] == Executing(Start(promoted), APPROVE, ROW, PROMOTED)
    ensures w.rowLocks == map[7 := 1] && w.keyLocks == if promoted then map[] else map[PROMOTED := 1]
  {
    var w1 := RequestAtStart(promoted);
    AdministratorMay(w1);
    w := ApprovesUpToCommit(w1, 1, APPROVE, ROW, PROMOTED);
    ReachesOn(Start(promoted), w1, w);
  }

  // ---------------------------------------------------------------- a report of expiry that is overturned

  lemma ReportsLate() returns (w: World)
    ensures Reaches(Start(false), w) && ReportsExpired(w, 2, 7)
    ensures 1 in w.calls && w.calls[1] == Executing(Start(false), APPROVE, ROW, PROMOTED)
  {
    var w1 := UpToCommit(false);
    var w2 := Opens(w1, 2, GetApproval(7));
    Advances(w1, w2, 2);
    var w3 := NextStep(w2, 2);
    assert w3 == Go(w2, 2, RowRead(ROW));
    ReachesStep(w1, w3, Tick(TTL));
    w := Apply(w3, Tick(TTL));
    ReachesOn(Start(false), w1, w);
  }

  /** The commit of that approve executes the row. */
  lemma ExecutingCommits(w: World, w0: World, s: SessionId)
    requires Inv(w) && s in w.calls && w.calls[s] == Executing(w0, APPROVE, ROW, PROMOTED)
    ensures Allowed(w, Advance(s)) && PendingAt(w, 7)
    ensures 7 in NextStep(w, s).tables.approvals && NextStep(w, s).tables.approvals[7].status == Executed
  {
    assert CallOk(w.tables, w.clock, w.calls[s]);
  }

  /** In `w` session 2 reports approval 7 expired, which leaves `w1`; then session 1 executes it, which leaves `w2`. */
  predicate Overturned(w: World, w1: World, w2: World) {
    && ReportsExpired(w, 2, 7) && w1 == NextStep(w, 2) && ReportedExpired(w1, 2, 7)
    && UnderWay(w1, 7) && 1 in w1.calls && w2 == NextStep(w1, 1)
    && 7 in w2.tables.approvals && w2.tables.approvals[7].status == Executed
  }

  lemma ReportLeavesHolder(w: World)
    requires Inv(w) && ReportsExpired(w, 2, 7) && 1 in w.calls
    ensures
      var w1 := NextStep(w, 2);
      Inv(w1) && Allowed(w, Advance(2)) && ReportedExpired(w1, 2, 7) && 1 in w1.calls && w1.calls[1] == w.calls[1]
  {
    ReportIsMade(w, 2, 7);
    ApplyKeeps(w, Advance(2));
    ApplyCalls(w, Advance(2), 1);
  }

  lemma ExecutionWasUnderWay(w: World)
    requires Inv(w) && 1 in w.calls && w.calls[1] == Executing(Start(false), APPROVE, ROW, PROMOTED)
    ensures Allowed(w, Advance(1)) && UnderWay(w, 7)
    ensures 7 in NextStep(w, 1).tables.approvals && NextStep(w, 1).tables.approvals[7].status == Executed
  {
    ExecutingCommits(w, Start(false), 1);
    SettlingWasUnderWay(w, Advance(1), 7);
  }

  lemma LateReportOverturned(w: World)
    requires Inv(w) && ReportsExpired(w, 2, 7) && 1 in w.calls
    requires w.calls[1] == Executing(Start(false), APPROVE, ROW, PROMOTED)
    ensures Allowed(w, Advance(2)) && Allowed(NextStep(w, 2), Advance(1))
    ensures Overturned(w, NextStep(w, 2), NextStep(NextStep(w, 2), 1))
  {
    ReportLeavesHolder(w);
    ExecutionWasUnderWay(NextStep(w, 2));
  }

  lemma Overturning() returns (w: World)
    ensures Reaches(Start(false), w) && Initial(Start(false))
    ensures Allowed(w, Advance(2)) && Allowed(NextStep(w, 2), Advance(1))
    ensures Overturned(w, NextStep(w, 2), NextStep(NextStep(w, 2), 1))
  {
    w := ReportsLate();
    InitialInv(Start(false));
    ReachesKeeps(Start(false), w);
    LateReportOverturned(w);
  }

  /** From a start with one administrator: `get` reports its request expired, and the next step executes it. */
  lemma ReportOverturned() returns (ws: seq<World>, n: nat)
    ensures Run(ws) && n + 2 < |ws| && Overturned(ws[n], ws[n + 1], ws[n + 2])
  {
    var w := Overturning();
    var start := RunOf(Start(false), w);
    n := |start| - 1;
    ws := AdvancesTwice(start, w, 2, 1);
  }

  // ---------------------------------------------------------------- an already_assigned that is stale

  lemma RemoverScans() returns (w: World)
    ensures Reaches(Start(true), w) && {1, 2} <= w.calls.Keys && PROMOTED in w.tables.grants && w.keyLocks == map[]
    ensures w.calls[1] == Executing(Start(true), APPROVE, ROW, PROMOTED)
    ensures w.calls[2].phase == Scanned(PROMOTED, Some(w.tables.grants[PROMOTED]))
  {
    var w1 := UpToCommit(true);
    var w2 := Opens(w1, 2, RemoveRole(1, 1, SUPPORT_ROLE));
    Advances(w1, w2, 2);
    var w3 := NextStep(w2, 2);
    assert w3 == Go(w2, 2, RoleTarget(PROMOTED));
    Advances(w1, w3, 2);
    w := NextStep(w3, 2);
    assert w == Go(w3, 2, Scanned(PROMOTED, Some(w.tables.grants[PROMOTED])));
    ReachesOn(Start(true), w1, w);
  }

  lemma RemovalSteps(w: World)
    requires Inv(w) && {1, 2} <= w.calls.Keys && PROMOTED in w.tables.grants && w.keyLocks == map[]
    requires w.calls[1] == Executing(Start(true), APPROVE, ROW, PROMOTED)
    requires w.calls[2].phase == Scanned(PROMOTED, Some(w.tables.grants[PROMOTED]))
    ensures Allowed(w, Advance(2)) && Allowed(NextStep(w, 2), Advance(2))
    ensures PROMOTED !in NextStep(NextStep(NextStep(w, 2), 2), 1).tables.grants
  {
    assert CallOk(w.tables, w.clock, w.calls[1]);
    AlreadyAssignedMayBeStale(w, 1, 2, PROMOTED);
  }

  lemma RemovalLeavesHolder(w: World)
    requires Inv(w) && {1, 2} <= w.calls.Keys && Allowed(w, Advance(2)) && Allowed(NextStep(w, 2), Advance(2))
    ensures
      var w' := NextStep(NextStep(w, 2), 2);
      Inv(w') && 1 in w'.calls && w'.calls[1] == w.calls[1]
  {
    ApplyKeeps(w, Advance(2));
    ApplyKeeps(NextStep(w, 2), Advance(2));
    ApplyCalls(w, Advance(2), 1);
    ApplyCalls(NextStep(w, 2), Advance(2), 1);
  }

  /** In `w` session 1 executes approval 7 as already_assigned, which leaves `w'` without the role. */
  ghost predicate Stale(w: World, w': World) {
    && PendingAt(w, 7) && ExecutionEffect(w.tables, w'.tables, 7, false) && PROMOTED !in w'.tables.grants
    && |w'.tables.audit| > 0
    && w'.tables.audit[|w'.tables.audit| - 1]
       == [RoleAssigned(1, PROMOTED, false), ApprovalExecuted(1, 7, AlreadyAssigned)]
  }

  lemma StaleCommit(w: World)
    requires Inv(w) && 1 in w.calls && w.calls[1] == Executing(Start(true), APPROVE, ROW, PROMOTED)
    requires PROMOTED !in NextStep(w, 1).tables.grants
    ensures Allowed(w, Advance(1)) && Stale(w, NextStep(w, 1))
  {
    ExecutingCommits(w, Start(true), 1);
    StepTables(w, Advance(1));
    ExecutionInstalls(w.tables, w.calls[1].writes);
  }

  lemma Staling() returns (w: World, w': World)
    ensures Reaches(Start(true), w) && Initial(Start(true)) && Stale(w, w')
    ensures Allowed(w, Advance(1)) && w' == NextStep(w, 1)
  {
    var w1 := RemoverScans();
    InitialInv(Start(true));
    ReachesKeeps(Start(true), w1);
    RemovalSteps(w1);
    RemovalLeavesHolder(w1);
    Advances(Start(true), w1, 2);
    Advances(Start(true), NextStep(w1, 2), 2);
    w := NextStep(NextStep(w1, 2), 2);
    w' := NextStep(w, 1);
    StaleCommit(w);
  }

  /** From a start with one administrator: its promotion is executed as already_assigned, without the role. */
  lemma AssignmentStale() returns (ws: seq<World>, n: nat)
    ensures Run(ws) && n + 1 < |ws| && Stale(ws[n], ws[n + 1])
  {
    var w, w' := Staling();
    ws, n := RunWith(Start(true), w, Advance(1), w');
  }
}
