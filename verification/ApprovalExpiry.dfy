/** What a report of expiry settles: when an overdue approval can still be executed or rejected, exactly. */
module ApprovalExpiry {
  import opened Wrappers
  import opened ApprovalTypes
  import opened ApprovalMachine
  import opened AuditTrail
  import opened ApprovalInvariant
  import opened ApprovalTheorems
  import opened ApprovalAuthority
  import opened ApprovalRuns
  import opened ApprovalAlone
  import opened ApprovalPaths
  import Runs

  predicate Settled(w: World, id: ApprovalId) {
    id in w.tables.approvals && w.tables.approvals[id].status in {Executed, Rejected}
  }

  /** Some role gives this permission, so whoever exists can still receive it. */
  predicate Grantable(w: World, permission: string) {
    exists role :: role in w.catalog && permission in w.catalog[role]
  }

  /** The executor can still come to its insert. */
  predicate ActionPossible(w: World, row: Approval, tool: Tool) {
    && tool.approvalExecutor == Some(GrantSupportAgentRole) && row.arguments.TargetUser?
    && SUPPORT_ROLE in w.catalog && Obtainable(w, row.arguments.user)
  }

  /** A call past its clock reading that no check still ahead of it is bound to stop. */
  predicate CanDecide(w: World, c: Call) {
    match c.phase
    case Timed(row, _, tool) => Grantable(w, tool.permission) && ActionPossible(w, row, tool)
    case Permitted(row, _, tool) => ActionPossible(w, row, tool)
    case Granting(_, _, _) => true
    case Writing(_) => c.writes.approval.Some? && c.writes.approval.value.1.status in {Executed, Rejected}
    case _ => false
  }

  /** The session that holds the row's lock can decide the row. */
  predicate UnderWay(w: World, id: ApprovalId) {
    id in w.rowLocks && w.rowLocks[id] in w.calls && CanDecide(w, w.calls[w.rowLocks[id]])
  }

  predicate Overdue(w: World, id: ApprovalId) {
    id in w.tables.approvals && w.clock >= w.tables.approvals[id].expiresAt
  }

  // ---------------------------------------------------------------- what can be had never grows

  lemma CreatorStep(w: World, a: Action, user: UserId, t: SessionId)
    requires Inv(w) && Allowed(w, a) && t in Apply(w, a).calls && Apply(w, a).calls[t].request == CreateUser(user)
    requires Apply(w, a).calls[t].phase.Writing?
    ensures Creatable(w, user)
  {
    if t in w.calls && w.calls[t].phase.Writing? {
      ApplyCalls(w, a, t);
    } else if t in w.calls {
      ApplyCalls(w, a, t);
      assert CallOk(w.tables, w.clock, w.calls[t]);
      CreatorBegins(w, t);
      forall t' | t' in w.calls && w.calls[t'].request == CreateUser(user) ensures w.calls[t'].phase.Begin? {
        if t' != t {
          DistinctIds(w, t, t');
          assert false;
        }
      }
    } else {
      NewcomerBegins(w, a, t);
      assert false;
    }
  }

  /** A user's creation is buffered by its first step, when the default role exists. */
  lemma CreatorBegins(w: World, t: SessionId)
    requires t in w.calls && w.calls[t].request.CreateUser? && CallOk(w.tables, w.clock, w.calls[t])
    requires !w.calls[t].phase.Writing? && NextStep(w, t).calls[t].phase.Writing?
    ensures w.calls[t].phase.Begin? && DEFAULT_ROLE in w.catalog
  {
  }

  /** No step brings a call back to its beginning. */
  lemma BeginsBefore(w: World, a: Action, t: SessionId)
    requires Allowed(w, a) && t in w.calls
    ensures t in Apply(w, a).calls && (Apply(w, a).calls[t].phase.Begin? ==> w.calls[t].phase.Begin?)
  {
    ApplyCalls(w, a, t);
    if a.Advance? && a.session == t {
      StepEases(w, t);
    }
  }

  lemma CreatableBefore(w: World, a: Action, user: UserId)
    requires Inv(w) && Allowed(w, a) && Creatable(Apply(w, a), user)
    ensures Creatable(w, user)
  {
    var w' := Apply(w, a);
    if t :| t in w'.calls && w'.calls[t].request == CreateUser(user) && w'.calls[t].phase.Writing? {
      CreatorStep(w, a, user, t);
    } else {
      ApplyKeepsCatalog(w, a);
      forall t | t in w.calls && w.calls[t].request == CreateUser(user) ensures w.calls[t].phase.Begin? {
        ApplyCalls(w, a, t);
        BeginsBefore(w, a, t);
      }
    }
  }

  lemma ObtainableBefore(w: World, a: Action, user: UserId)
    requires Inv(w) && Allowed(w, a) && Obtainable(Apply(w, a), user)
    ensures Obtainable(w, user)
  {
    if user !in Apply(w, a).tables.users {
      CreatableBefore(w, a, user);
    } else if user !in w.tables.users {
      StepTables(w, a);
      assert w.calls[a.session].request == CreateUser(user);
    }
  }

  lemma CanDecideBefore(w: World, a: Action, c: Call)
    requires Inv(w) && Allowed(w, a) && CanDecide(Apply(w, a), c)
    ensures CanDecide(w, c)
  {
    ApplyKeepsCatalog(w, a);
    if (c.phase.Timed? || c.phase.Permitted?) && c.phase.row.arguments.TargetUser? {
      ObtainableBefore(w, a, c.phase.row.arguments.user);
    }
  }

  // ---------------------------------------------------------------- the holder's own step

  /** A row lock taken by this step belongs to a call that has read nothing yet. */
  lemma HolderBefore(w: World, a: Action, id: ApprovalId, s: SessionId)
    requires Inv(w) && Allowed(w, a) && s in Apply(w, a).calls && Apply(w, a).calls[s].held == Some(id)
    ensures s in w.calls && (Apply(w, a).calls[s].phase.Locked? || w.calls[s].held == Some(id))
  {
    if s !in w.calls {
      NewcomerHolds(w, a, s);
      assert false;
    } else {
      ApplyCalls(w, a, s);
      if a.Advance? && a.session == s {
        HeldBefore(w, s);
      }
    }
  }

  lemma NewcomerHolds(w: World, a: Action, s: SessionId)
    requires Allowed(w, a) && s !in w.calls && s in Apply(w, a).calls
    ensures Apply(w, a).calls[s].held == None
  {
    if a.Advance? {
      StepCalls(w, a.session);
    }
  }

  /** From `w` to `w'` the call of `s` took no row lock. */
  predicate TakesNoRow(w: World, w': World, s: SessionId)
    requires s in w.calls
  {
    s in w'.calls && (w'.calls[s].held == w.calls[s].held || w'.calls[s].held == None)
  }

  lemma HeldBefore(w: World, s: SessionId)
    requires s in w.calls
    ensures s in NextStep(w, s).calls
    ensures NextStep(w, s).calls[s].phase.Locked? || TakesNoRow(w, NextStep(w, s), s)
  {
    match w.calls[s].phase
    case Begin => FirstHeld(w, s);
    case Authorised(row) => PendingHeld(w, s, row);
    case ActionAllowed => assert TakesNoRow(w, CreateApproval(w, s), s);
    case RowRead(row) => assert TakesNoRow(w, ReportApproval(w, s, row), s);
    case Locked(row) => assert TakesNoRow(w, CheckDecider(w, s, row), s);
    case Timed(row, now, tool) => assert TakesNoRow(w, CheckRequester(w, s, row, now, tool), s);
    case Permitted(row, now, tool) => assert TakesNoRow(w, RunExecutor(w, s, row, now, tool), s);
    case Granting(row, now, g) => assert TakesNoRow(w, InsertApprovedGrant(w, s, row, now, g), s);
    case RoleTarget(g) => assert TakesNoRow(w, ChangeRole(w, s, g), s);
    case Scanned(g, seen) => assert TakesNoRow(w, DeleteSeen(w, s, g, seen), s);
    case Writing(o) => assert TakesNoRow(w, Commit(w, s, AfterCommit(o)), s);
    case Unwinding(o) => assert TakesNoRow(w, Release(w, s, Finished(o)), s);
    case Finished(_) =>
  }

  lemma FirstHeld(w: World, s: SessionId)
    requires s in w.calls
    ensures s in FirstStep(w, s).calls
    ensures FirstStep(w, s).calls[s].phase.Locked? || TakesNoRow(w, FirstStep(w, s), s)
  {
  }

  lemma PendingHeld(w: World, s: SessionId, row: Approval)
    requires s in w.calls
    ensures TakesNoRow(w, CheckPending(w, s, row), s)
  {
  }

  /** What a call that holds a row lock has behind it. */
  predicate HolderOk(w: World, c: Call, id: ApprovalId) {
    && c.held == Some(id) && DecidedRow(c.request) == Some(id) && id in w.tables.approvals
    && match c.phase
       case Locked(row) => true
       case Authorised(row) => row == w.tables.approvals[id]
       case Timed(_, _, _) => true
       case Permitted(row, _, tool) => tool.approvalExecutor.Some?
       case Granting(_, _, _) => true
       case Writing(_) => true
       case Unwinding(_) => true
       case _ => false
  }

  lemma HoldersAreOk(w: World, s: SessionId, id: ApprovalId)
    requires s in w.calls && CallOk(w.tables, w.clock, w.calls[s]) && w.calls[s].held == Some(id)
    requires id in w.tables.approvals
    ensures HolderOk(w, w.calls[s], id)
  {
  }

  /** Past the expiry, a call that can decide after its own step could before it. */
  lemma OwnStepBefore(w: World, s: SessionId, id: ApprovalId)
    requires Inv(w) && Overdue(w, id) && Allowed(w, Advance(s)) && w.calls[s].held == Some(id)
    requires s in NextStep(w, s).calls && NextStep(w, s).calls[s].held == Some(id)
    requires CanDecide(NextStep(w, s), NextStep(w, s).calls[s])
    ensures CanDecide(w, w.calls[s])
  {
    HoldersAreOk(w, s, id);
    if w.calls[s].phase.Timed? {
      TimedStep(w, s);
      CanDecideBefore(w, Advance(s), NextStep(w, s).calls[s]);
    } else {
      OtherStepBefore(w, s, id);
    }
  }

  lemma OtherStepBefore(w: World, s: SessionId, id: ApprovalId)
    requires Overdue(w, id) && s in w.calls && HolderOk(w, w.calls[s], id) && !w.calls[s].phase.Timed?
    requires s in NextStep(w, s).calls && NextStep(w, s).calls[s].held == Some(id)
    requires CanDecide(NextStep(w, s), NextStep(w, s).calls[s])
    ensures CanDecide(w, w.calls[s])
  {
    match w.calls[s].phase
    case Locked(row) => LockedUndecided(w, s, row);
    case Authorised(row) => OverdueCloses(w, s, row);
    case Permitted(row, now, tool) => PermittedStep(w, s, row, now, tool);
    case Granting(_, _, _) =>
    case _ => EndsHere(w, s);
  }

  lemma LockedUndecided(w: World, s: SessionId, row: Approval)
    requires s in w.calls && DecidedRow(w.calls[s].request).Some?
    ensures s in CheckDecider(w, s, row).calls && !CanDecide(CheckDecider(w, s, row), CheckDecider(w, s, row).calls[s])
  {
  }

  lemma OverdueCloses(w: World, s: SessionId, row: Approval)
    requires s in w.calls && w.clock >= row.expiresAt && DecidedRow(w.calls[s].request).Some?
    ensures s in CheckPending(w, s, row).calls && !CanDecide(CheckPending(w, s, row), CheckPending(w, s, row).calls[s])
  {
  }

  lemma TimedStep(w: World, s: SessionId)
    requires s in w.calls && w.calls[s].phase.Timed?
    requires CanDecide(NextStep(w, s), NextStep(w, s).calls[s])
    ensures
      var p := w.calls[s].phase;
      NextStep(w, s).calls[s].phase == Permitted(p.row, p.now, p.tool)
    ensures Grantable(w, w.calls[s].phase.tool.permission)
  {
  }

  lemma PermittedStep(w: World, s: SessionId, row: Approval, now: Time, tool: Tool)
    requires s in w.calls && tool.approvalExecutor.Some?
    requires CanDecide(RunExecutor(w, s, row, now, tool), RunExecutor(w, s, row, now, tool).calls[s])
    ensures ActionPossible(w, row, tool)
  {
    match tool.approvalExecutor.value
    case GrantSupportAgentRole =>
    case OtherExecutor =>
  }

  lemma EndsHere(w: World, s: SessionId)
    requires s in w.calls && w.calls[s].held.Some?
    requires var p := w.calls[s].phase; p.Writing? || p.Unwinding? || p.Finished?
    ensures w.calls[s].phase.Finished? || NextStep(w, s).calls[s].held == None
  {
  }

  // ---------------------------------------------------------------- without such a holder the report is final

  /** Undecided, overdue, and no holder of the row lock can decide. */
  ghost predicate Lapsed(w: World, id: ApprovalId) {
    Inv(w) && Overdue(w, id) && !Settled(w, id) && !UnderWay(w, id)
  }

  lemma HolderWasUnderWay(w: World, a: Action, id: ApprovalId)
    requires Inv(w) && Allowed(w, a) && Overdue(w, id) && UnderWay(Apply(w, a), id)
    ensures UnderWay(w, id)
  {
    var w' := Apply(w, a);
    ApplyKeeps(w, a);
    var s := w'.rowLocks[id];
    assert RowLocksOk(w') && RowLocksOk(w);
    HolderBefore(w, a, id, s);
    assert w.rowLocks[id] == s;
    ApplyCalls(w, a, s);
    if a.Tick? || a.session != s {
      CanDecideBefore(w, a, w.calls[s]);
    } else if a.Advance? {
      OwnStepBefore(w, s, id);
    } else {
      OutsideEnds(w, a, s);
    }
  }

  lemma OutsideEnds(w: World, a: Action, s: SessionId)
    requires Allowed(w, a) && s in w.calls && !a.Advance? && !a.Tick? && a.session == s
    ensures s in Apply(w, a).calls && !CanDecide(Apply(w, a), Apply(w, a).calls[s])
  {
  }

  /** A commit that executes or rejects a row was under way. */
  lemma SettlingWasUnderWay(w: World, a: Action, id: ApprovalId)
    requires Inv(w) && Allowed(w, a) && id in w.tables.approvals && !Settled(w, id) && Settled(Apply(w, a), id)
    ensures UnderWay(w, id)
  {
    StepTables(w, a);
    assert RowLocksOk(w);
    assert w.calls[a.session].writes.approval.value.0 == id && w.calls[a.session].held == Some(id);
  }

  lemma LapsedStays(w: World, w': World, id: ApprovalId)
    requires Lapsed(w, id) && Step(w, w')
    ensures Lapsed(w', id)
  {
    var a := StepAction(w, w');
    StepKeeps(w, w');
    StepEvolves(w, w');
    ApplyKeepsCatalog(w, a);
    if Settled(w', id) {
      SettlingWasUnderWay(w, a, id);
    }
    if UnderWay(w', id) {
      HolderWasUnderWay(w, a, id);
    }
  }

  lemma LapsedForGood(w: World, w': World, id: ApprovalId)
    requires Lapsed(w, id) && Reaches(w, w')
    ensures !Settled(w', id)
  {
    ghost var keep := (x: World) => Lapsed(x, id);
    forall a, b | keep(a) && Steps()(a, b) ensures keep(b) {
      LapsedStays(a, b, id);
    }
    Runs.LeadsKeeps(Steps(), keep, w, w');
  }

  // ---------------------------------------------------------------- with one it can be overturned

  /** `w'` continues `w`, and the row is executed or rejected there. */
  ghost predicate Overturns(w: World, w': World, id: ApprovalId) {
    Reaches(w, w') && Settled(w', id)
  }

  lemma BesideOverturns(w: World, w': World, w'': World, s: SessionId, id: ApprovalId)
    requires Beside(w, w', s) && Overturns(w', w'', id)
    ensures Overturns(w, w'', id)
  {
    ReachesOn(w, w', w'');
  }

  lemma StepOverturns(w: World, s: SessionId, w': World, id: ApprovalId)
    requires Inv(w) && Allowed(w, Advance(s)) && Overturns(NextStep(w, s), w', id)
    ensures Overturns(w, w', id)
  {
    Stepping(w, Advance(s));
    ReachesOn(w, NextStep(w, s), w');
  }

  lemma DriveWriting(w: World, s: SessionId, id: ApprovalId) returns (w': World)
    requires Inv(w) && s in w.calls && w.calls[s].held == Some(id) && w.calls[s].phase.Writing?
    requires CanDecide(w, w.calls[s])
    ensures Overturns(w, w', id)
  {
    w' := NextStep(w, s);
    Stepping(w, Advance(s));
    StepTables(w, Advance(s));
  }

  /** The holder of a row lock is deciding, and past its clock reading it approves and has no key yet. */
  lemma HolderDecides(w: World, s: SessionId)
    requires Inv(w) && s in w.calls && w.calls[s].held.Some?
    ensures DecidedRow(w.calls[s].request).Some?
    ensures
      var p := w.calls[s].phase;
      p.Timed? || p.Permitted? || p.Granting? ==> w.calls[s].request.Approve? && w.calls[s].key == None
  {
    assert CallOk(w.tables, w.clock, w.calls[s]);
  }

  lemma GrantingStep(w: World, s: SessionId, row: Approval, now: Time, g: Grant)
    requires s in w.calls && w.calls[s].request.Approve? && w.calls[s].phase == Granting(row, now, g)
    ensures
      var c' := NextStep(w, s).calls[s];
      c'.held == w.calls[s].held && c'.phase.Writing? && CanDecide(NextStep(w, s), c')
  {
  }

  lemma DriveInsert(w: World, s: SessionId, id: ApprovalId) returns (w': World)
    requires Inv(w) && s in w.calls && w.calls[s].held == Some(id) && w.calls[s].phase.Granting?
    requires w.calls[s].request.Approve? && Allowed(w, Advance(s))
    ensures Overturns(w, w', id)
  {
    var c := w.calls[s];
    GrantingStep(w, s, c.phase.row, c.phase.now, c.phase.grant);
    Stepping(w, Advance(s));
    w' := DriveWriting(NextStep(w, s), s, id);
    StepOverturns(w, s, w', id);
  }

  lemma DriveGranting(w: World, s: SessionId, id: ApprovalId) returns (w': World)
    requires Inv(w) && s in w.calls && w.calls[s].held == Some(id) && w.calls[s].phase.Granting?
    ensures Overturns(w, w', id)
  {
    HolderDecides(w, s);
    var w1 := FreeKey(w, w.calls[s].phase.grant, s);
    w' := DriveInsert(w1, s, id);
    BesideOverturns(w, w1, w', s, id);
  }

  lemma ExecutorStep(w: World, s: SessionId, row: Approval, now: Time, tool: Tool)
    requires s in w.calls && w.calls[s].phase == Permitted(row, now, tool)
    requires ActionPossible(w, row, tool) && row.arguments.user in w.tables.users
    ensures NextStep(w, s).calls[s].held == w.calls[s].held && NextStep(w, s).calls[s].phase.Granting?
  {
  }

  lemma DriveExecutor(w: World, s: SessionId, id: ApprovalId) returns (w': World)
    requires Inv(w) && s in w.calls && w.calls[s].held == Some(id) && w.calls[s].phase.Permitted?
    requires ActionPossible(w, w.calls[s].phase.row, w.calls[s].phase.tool)
    requires w.calls[s].phase.row.arguments.user in w.tables.users
    ensures Overturns(w, w', id)
  {
    var c := w.calls[s];
    Stepping(w, Advance(s));
    ExecutorStep(w, s, c.phase.row, c.phase.now, c.phase.tool);
    w' := DriveGranting(NextStep(w, s), s, id);
    StepOverturns(w, s, w', id);
  }

  lemma DrivePermitted(w: World, s: SessionId, id: ApprovalId) returns (w': World)
    requires Inv(w) && s in w.calls && w.calls[s].held == Some(id) && w.calls[s].phase.Permitted?
    requires CanDecide(w, w.calls[s])
    ensures Overturns(w, w', id)
  {
    HolderDecides(w, s);
    var w1 := EnsureUser(w, w.calls[s].phase.row.arguments.user, s);
    w' := DriveExecutor(w1, s, id);
    BesideOverturns(w, w1, w', s, id);
  }

  lemma RequesterStep(w: World, s: SessionId, row: Approval, now: Time, tool: Tool)
    requires s in w.calls && w.calls[s].phase == Timed(row, now, tool)
    requires HasPermission(w, row.requester, tool.permission)
    ensures NextStep(w, s).calls[s].held == w.calls[s].held
    ensures NextStep(w, s).calls[s].phase == Permitted(row, now, tool)
    ensures NextStep(w, s).tables == w.tables && NextStep(w, s).catalog == w.catalog
  {
  }

  /** First the target user is created, then the requester is given a role with the permission. */
  lemma EnsureChecks(w: World, s: SessionId, row: Approval, tool: Tool) returns (w': World)
    requires Inv(w) && s in w.calls && w.calls[s].key == None && !w.calls[s].request.CreateUser?
    requires row.requester in w.tables.users && Grantable(w, tool.permission) && ActionPossible(w, row, tool)
    ensures Beside(w, w', s) && HasPermission(w', row.requester, tool.permission)
    ensures row.arguments.user in w'.tables.users
  {
    var w1 := EnsureUser(w, row.arguments.user, s);
    var role :| role in w1.catalog && tool.permission in w1.catalog[role];
    w' := EnsureGrant(w1, row.requester, role, s);
    BesideOn(w, w1, w', s);
  }

  lemma DriveRequester(w: World, s: SessionId, id: ApprovalId) returns (w': World)
    requires Inv(w) && s in w.calls && w.calls[s].held == Some(id) && w.calls[s].phase.Timed?
    requires CanDecide(w, w.calls[s])
    requires HasPermission(w, w.calls[s].phase.row.requester, w.calls[s].phase.tool.permission)
    requires w.calls[s].phase.row.arguments.user in w.tables.users
    ensures Overturns(w, w', id)
  {
    var c := w.calls[s];
    Stepping(w, Advance(s));
    RequesterStep(w, s, c.phase.row, c.phase.now, c.phase.tool);
    w' := DrivePermitted(NextStep(w, s), s, id);
    StepOverturns(w, s, w', id);
  }

  lemma DriveTimed(w: World, s: SessionId, id: ApprovalId) returns (w': World)
    requires Inv(w) && s in w.calls && w.calls[s].held == Some(id) && w.calls[s].phase.Timed?
    requires CanDecide(w, w.calls[s]) && w.calls[s].phase.row.requester in w.tables.users
    ensures Overturns(w, w', id)
  {
    HolderDecides(w, s);
    var w1 := EnsureChecks(w, s, w.calls[s].phase.row, w.calls[s].phase.tool);
    w' := DriveRequester(w1, s, id);
    BesideOverturns(w, w1, w', s, id);
  }

  lemma Drive(w: World, id: ApprovalId) returns (w': World)
    requires Inv(w) && UnderWay(w, id) && RequesterKnown(w, id)
    ensures Overturns(w, w', id)
  {
    var s := w.rowLocks[id];
    assert RowLocksOk(w) && CallOk(w.tables, w.clock, w.calls[s]);
    match w.calls[s].phase
    case Timed(_, _, _) => w' := DriveTimed(w, s, id);
    case Permitted(_, _, _) => w' := DrivePermitted(w, s, id);
    case Granting(_, _, _) => w' := DriveGranting(w, s, id);
    case Writing(_) => w' := DriveWriting(w, s, id);
  }

  // ---------------------------------------------------------------- the exact condition

  predicate RequesterKnown(w: World, id: ApprovalId) {
    id in w.tables.approvals ==> w.tables.approvals[id].requester in w.tables.users
  }

  /** Whoever requested an approval held a role then, and users are never deleted. */
  lemma RequestersAreKnown(ws: seq<World>, n: nat, id: ApprovalId)
    requires Run(ws) && n < |ws|
    ensures RequesterKnown(ws[n], id)
  {
    if id in ws[n].tables.approvals {
      DecisionsHadAuthority(ws, n);
      var row := ws[n].tables.approvals[id];
      assert RowWitnessed(ws, n, id);
      var s :| RequestedBy(ws, n, id, row, s);
      var permission := ws[n].calls[s].request.registry[row.tool].permission;
      var k: nat :| k < n && ReadsAt(ws, k, s, None, row.requester, permission);
      RunInv(ws, k);
      RunEvolves(ws, k, n);
    }
  }

  /** An overdue approval is, or can still be, executed or rejected exactly when it is already or is under way. */
  lemma OverdueIsExact(w: World, id: ApprovalId)
    requires Inv(w) && Overdue(w, id) && RequesterKnown(w, id)
    ensures (Settled(w, id) || UnderWay(w, id)) <==> exists w' :: Overturns(w, w', id)
  {
    if Settled(w, id) {
      ReachesItself(w);
      assert Overturns(w, w, id);
    } else if UnderWay(w, id) {
      var w' := Drive(w, id);
    } else if w' :| Overturns(w, w', id) {
      LapsedForGood(w, w', id);
    }
  }

  /** The call of session `g` has just reported approval `id` as expired. */
  predicate ReportedExpired(w: World, g: SessionId, id: ApprovalId) {
    && g in w.calls && w.calls[g].request == GetApproval(id)
    && w.calls[g].phase.Unwinding? && w.calls[g].phase.outcome.Snapshot?
    && w.calls[g].phase.outcome.id == id && w.calls[g].phase.outcome.row.status == Expired
  }

  /** From the state after the report: open exactly when the row is decided or under way there. */
  lemma ReportIsExact(w: World, g: SessionId, id: ApprovalId)
    requires Inv(w) && ReportsExpired(w, g, id) && g in w.calls && RequesterKnown(NextStep(w, g), id)
    ensures ReportedExpired(NextStep(w, g), g, id)
    ensures
      var w1 := NextStep(w, g);
      (Settled(w1, id) || UnderWay(w1, id)) <==> exists w' :: Overturns(w1, w', id)
  {
    ReportIsMade(w, g, id);
    Stepping(w, Advance(g));
    OverdueIsExact(NextStep(w, g), id);
  }

  lemma ReportIsMade(w: World, g: SessionId, id: ApprovalId)
    requires Inv(w) && ReportsExpired(w, g, id)
    ensures Allowed(w, Advance(g)) && ReportedExpired(NextStep(w, g), g, id) && Overdue(NextStep(w, g), id)
  {
    assert CallOk(w.tables, w.clock, w.calls[g]);
  }

  /**
   * The step of `get` that reports a pending row expired leaves it open exactly when the row was decided since it was
   * read, or the holder of its lock has read the clock in time and can still pass the checks ahead of it.
   */
  lemma ExpiredReportIsExact(ws: seq<World>, n: nat, g: SessionId, id: ApprovalId)
    requires Run(ws) && n + 1 < |ws| && ReportsExpired(ws[n], g, id) && ws[n + 1] == NextStep(ws[n], g)
    ensures ReportedExpired(ws[n + 1], g, id)
    ensures
      var w := ws[n + 1];
      (Settled(w, id) || UnderWay(w, id)) <==> exists w' :: Overturns(w, w', id)
  {
    RunInv(ws, n);
    RequestersAreKnown(ws, n + 1, id);
    ReportIsExact(ws[n], g, id);
  }
}
