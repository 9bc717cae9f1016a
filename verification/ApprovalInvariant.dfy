/** The invariant of the approval and role machine, kept by every step of every session. */
module ApprovalInvariant {
  import opened Wrappers
  import opened ApprovalTypes
  import opened ApprovalMachine
  import opened AuditTrail

  /** The buffered transaction fits the committed tables and the locks its call holds. */
  predicate WritesOwned(t: Tables, c: Call) {
    var ws := c.writes;
    && Sound(t, ws)
    && (ws.approval.Some? ==>
          (if ws.approval.value.1.status == Pending then NewApproval(c.request) else c.held) == Some(ws.approval.value.0))
    && (ws.grant != NoGrant ==> c.key == Some(ws.grant.grant))
    && (ws.user.Some? ==> NewUser(c.request) == ws.user)
  }

  /** The buffered transaction is one this request could have prepared. */
  predicate WritesFitRequest(c: Call) {
    match c.request
    case RequestAction(_, actor, tool, arguments, id) =>
      && c.writes.approval.Some? && c.writes.approval.value.0 == id
      && var row := c.writes.approval.value.1;
      && row.status == Pending && row.requester == actor && row.tool == tool && row.arguments == arguments
    case Approve(_, id, approver) =>
      && c.writes.approval.Some? && c.writes.approval.value.0 == id
      && var row := c.writes.approval.value.1;
      && (row.status == Expired || (row.status == Executed && row.decidedBy == Some(approver)))
    case Reject(_, id, approver) =>
      && c.writes.approval.Some? && c.writes.approval.value.0 == id
      && var row := c.writes.approval.value.1;
      && (row.status == Expired || (row.status == Rejected && row.decidedBy == Some(approver)))
    case GetApproval(_) => false
    case CreateUser(user) => c.writes == CreateUserWrites(user)
    case _ => c.writes.approval == None
  }

  predicate HoldsRow(t: Tables, c: Call, row: Approval) {
    && c.held.Some? && c.held == DecidedRow(c.request)
    && c.held.value in t.approvals && t.approvals[c.held.value] == row
  }

  predicate InTime(row: Approval, now: Time, clock: Time) {
    row.status == Pending && now < row.expiresAt && now <= clock
  }

  predicate IdsUnused(t: Tables, r: Request) {
    && (NewApproval(r).Some? ==> NewApproval(r).value !in t.approvals)
    && (NewUser(r).Some? ==> NewUser(r).value !in t.users)
  }

  predicate PhaseOk(t: Tables, clock: Time, c: Call) {
    match c.phase
    case Begin => c.held == None && IdsUnused(t, c.request)
    case ActionAllowed => c.request.RequestAction? && c.held == None && IdsUnused(t, c.request)
    case RowRead(row) => c.request.GetApproval? && c.held == None
                         && c.request.id in t.approvals && SameTerms(t.approvals[c.request.id], row)
    case Locked(row) => HoldsRow(t, c, row)
    case Authorised(row) => HoldsRow(t, c, row)
    case Timed(row, now, tool) =>
      HoldsRow(t, c, row) && InTime(row, now, clock) && c.request.Approve?
            && PendingTool(c.request.registry, row) == Some(tool)
    case Permitted(row, now, tool) =>
      HoldsRow(t, c, row) && InTime(row, now, clock) && c.request.Approve?
            && PendingTool(c.request.registry, row) == Some(tool)
    case Granting(row, now, g) =>
      && HoldsRow(t, c, row) && InTime(row, now, clock) && c.request.Approve? && row.arguments.TargetUser?
      && g == Grant(row.arguments.user, SUPPORT_ROLE) && g.user in t.users
    case RoleTarget(g) => (c.request.AssignRole? || c.request.RemoveRole?) && c.held == None && g.user in t.users
    case Scanned(g, _) => c.request.RemoveRole? && c.held == None && g.user in t.users
    case Writing(_) => WritesOwned(t, c) && WritesFitRequest(c) && IdsUnused(t, c.request)
    case Unwinding(_) => true
    case Finished(_) => c.held == None && c.key == None
  }

  predicate CallOk(t: Tables, clock: Time, c: Call) {
    && (c.held.Some? ==> c.held == DecidedRow(c.request))
    && (!c.phase.Writing? ==> c.writes == NO_WRITES)
    && (!c.phase.Writing? && !c.phase.Unwinding? ==> c.key == None)
    && (c.key.Some? ==> c.key.value.user in t.users || NewUser(c.request) == Some(c.key.value.user))
    && PhaseOk(t, clock, c)
  }

  /** The row lock table and the calls' own record of their locks agree. */
  predicate RowLocksOk(w: World) {
    && (forall id :: id in w.rowLocks ==> w.rowLocks[id] in w.calls && w.calls[w.rowLocks[id]].held == Some(id))
    && (forall s :: s in w.calls && w.calls[s].held.Some? ==>
          w.calls[s].held.value in w.rowLocks && w.rowLocks[w.calls[s].held.value] == s)
  }

  predicate KeyLocksOk(w: World) {
    && (forall g :: g in w.keyLocks ==> w.keyLocks[g] in w.calls && w.calls[w.keyLocks[g]].key == Some(g))
    && (forall s :: s in w.calls && w.calls[s].key.Some? ==>
          w.calls[s].key.value in w.keyLocks && w.keyLocks[w.calls[s].key.value] == s)
  }

  predicate LocksOk(w: World) {
    RowLocksOk(w) && KeyLocksOk(w) && IdsDistinct(w)
  }

  predicate IdsDistinct(w: World) {
    forall s, s' :: s in w.calls && s' in w.calls && s != s' ==>
      && (NewApproval(w.calls[s].request).Some? ==> NewApproval(w.calls[s].request) != NewApproval(w.calls[s'].request))
      && (NewUser(w.calls[s].request).Some? ==> NewUser(w.calls[s].request) != NewUser(w.calls[s'].request))
  }

  ghost predicate CallsOk(t: Tables, clock: Time, calls: map<SessionId, Call>) {
    forall s :: s in calls ==> CallOk(t, clock, calls[s])
  }

  ghost predicate Inv(w: World) {
    TablesOk(w.tables) && LocksOk(w) && CallsOk(w.tables, w.clock, w.calls)
  }

  // ---------------------------------------------------------------- building blocks

  lemma CallsWith(t: Tables, clock: Time, calls: map<SessionId, Call>, s: SessionId, c: Call)
    requires CallsOk(t, clock, calls) && CallOk(t, clock, c)
    ensures CallsOk(t, clock, calls[s := c])
  {
  }

  /** `w'` has the calls of `w`, each with its request. */
  ghost predicate SameCalls(w: World, w': World) {
    && (forall s :: s in w'.calls <==> s in w.calls)
    && (forall s :: s in w.calls ==> w'.calls[s].request == w.calls[s].request)
  }

  lemma SameRequests(w: World, w': World)
    requires IdsDistinct(w) && SameCalls(w, w')
    ensures IdsDistinct(w')
  {
  }

  lemma SameRowLocks(w: World, w': World)
    requires RowLocksOk(w) && SameCalls(w, w') && w'.rowLocks == w.rowLocks
    requires forall s :: s in w.calls ==> w'.calls[s].held == w.calls[s].held
    ensures RowLocksOk(w')
  {
  }

  lemma SameKeyLocks(w: World, w': World)
    requires KeyLocksOk(w) && SameCalls(w, w') && w'.keyLocks == w.keyLocks
    requires forall s :: s in w.calls ==> w'.calls[s].key == w.calls[s].key
    ensures KeyLocksOk(w')
  {
  }

  lemma DistinctIds(w: World, s: SessionId, s': SessionId)
    requires IdsDistinct(w) && s in w.calls && s' in w.calls && s != s'
    ensures NewApproval(w.calls[s].request).Some? ==>
          NewApproval(w.calls[s].request) != NewApproval(w.calls[s'].request)
    ensures NewUser(w.calls[s].request).Some? ==> NewUser(w.calls[s].request) != NewUser(w.calls[s'].request)
  {
  }

  lemma PutRowLocks(w: World, s: SessionId, c: Call)
    requires RowLocksOk(w) && s in w.calls && c.request == w.calls[s].request && c.held == w.calls[s].held
    ensures RowLocksOk(Put(w, s, c))
  {
    SameRowLocks(w, Put(w, s, c));
  }

  lemma PutKeyLocks(w: World, s: SessionId, c: Call)
    requires KeyLocksOk(w) && s in w.calls && c.request == w.calls[s].request && c.key == w.calls[s].key
    ensures KeyLocksOk(Put(w, s, c))
  {
    SameKeyLocks(w, Put(w, s, c));
  }

  lemma PutLocks(w: World, s: SessionId, c: Call)
    requires LocksOk(w) && s in w.calls
    requires c.request == w.calls[s].request && c.held == w.calls[s].held && c.key == w.calls[s].key
    ensures LocksOk(Put(w, s, c))
  {
    SameRequests(w, Put(w, s, c));
    PutRowLocks(w, s, c);
    PutKeyLocks(w, s, c);
  }

  lemma PutKeeps(w: World, s: SessionId, c: Call)
    requires Inv(w) && s in w.calls
    requires c.request == w.calls[s].request && c.held == w.calls[s].held && c.key == w.calls[s].key
    requires CallOk(w.tables, w.clock, c)
    ensures Inv(Put(w, s, c))
  {
    PutLocks(w, s, c);
    CallsWith(w.tables, w.clock, w.calls, s, c);
  }

  lemma RaiseKeeps(w: World, s: SessionId, error: Error)
    requires Inv(w) && s in w.calls
    ensures Inv(Raise(w, s, error))
  {
    assert CallOk(w.tables, w.clock, w.calls[s]);
    PutKeeps(w, s, w.calls[s].(phase := Unwinding(Failed(error)), writes := NO_WRITES));
  }

  lemma RowLockTaken(w: World, w': World, s: SessionId, id: ApprovalId)
    requires RowLocksOk(w) && SameCalls(w, w') && s in w.calls && w.calls[s].held == None && id !in w.rowLocks
    requires w'.rowLocks == w.rowLocks[id := s] && w'.calls[s].held == Some(id)
    requires forall s' :: s' in w.calls && s' != s ==> w'.calls[s'].held == w.calls[s'].held
    ensures RowLocksOk(w')
  {
  }

  lemma KeyLockTaken(w: World, w': World, s: SessionId, g: Grant)
    requires KeyLocksOk(w) && SameCalls(w, w') && s in w.calls && w.calls[s].key == None && g !in w.keyLocks
    requires w'.keyLocks == w.keyLocks[g := s] && w'.calls[s].key == Some(g)
    requires forall s' :: s' in w.calls && s' != s ==> w'.calls[s'].key == w.calls[s'].key
    ensures KeyLocksOk(w')
  {
  }

  lemma RowLockReleased(w: World, w': World, s: SessionId)
    requires RowLocksOk(w) && SameCalls(w, w') && s in w.calls && w'.calls[s].held == None
    requires w'.rowLocks == if w.calls[s].held.Some? then w.rowLocks - {w.calls[s].held.value} else w.rowLocks
    requires forall s' :: s' in w.calls && s' != s ==> w'.calls[s'].held == w.calls[s'].held
    ensures RowLocksOk(w')
  {
  }

  lemma KeyLockReleased(w: World, w': World, s: SessionId)
    requires KeyLocksOk(w) && SameCalls(w, w') && s in w.calls && w'.calls[s].key == None
    requires w'.keyLocks == if w.calls[s].key.Some? then w.keyLocks - {w.calls[s].key.value} else w.keyLocks
    requires forall s' :: s' in w.calls && s' != s ==> w'.calls[s'].key == w.calls[s'].key
    ensures KeyLocksOk(w')
  {
  }

  lemma TakeRowLocks(w: World, s: SessionId, id: ApprovalId, row: Approval)
    requires LocksOk(w) && s in w.calls && w.calls[s].held == None && id !in w.rowLocks
    ensures LocksOk(TakeRow(w, s, id, row))
  {
    var w' := TakeRow(w, s, id, row);
    SameRequests(w, w');
    SameKeyLocks(w, w');
    RowLockTaken(w, w', s, id);
  }

  lemma TakeRowKeeps(w: World, s: SessionId, id: ApprovalId)
    requires Inv(w) && s in w.calls && w.calls[s].phase == Begin
    requires DecidedRow(w.calls[s].request) == Some(id) && id in w.tables.approvals && id !in w.rowLocks
    ensures Inv(TakeRow(w, s, id, w.tables.approvals[id]))
  {
    var w' := TakeRow(w, s, id, w.tables.approvals[id]);
    assert CallOk(w.tables, w.clock, w.calls[s]);
    TakeRowLocks(w, s, id, w.tables.approvals[id]);
    CallsWith(w.tables, w.clock, w.calls, s, w'.calls[s]);
  }

  lemma BufferLocks(w: World, s: SessionId, ws: Writes, o: Outcome)
    requires LocksOk(w) && s in w.calls && w.calls[s].key == None
    requires ws.grant != NoGrant ==> ws.grant.grant !in w.keyLocks
    ensures LocksOk(Buffer(w, s, ws, o))
  {
    var w' := Buffer(w, s, ws, o);
    SameRequests(w, w');
    SameRowLocks(w, w');
    if ws.grant == NoGrant {
      SameKeyLocks(w, w');
    } else {
      KeyLockTaken(w, w', s, ws.grant.grant);
    }
  }

  lemma BufferKeeps(w: World, s: SessionId, ws: Writes, o: Outcome)
    requires Inv(w) && s in w.calls && w.calls[s].key == None
    requires IdsUnused(w.tables, w.calls[s].request)
    requires ws.grant != NoGrant ==> ws.grant.grant !in w.keyLocks
    requires WritesOwned(w.tables, Buffer(w, s, ws, o).calls[s]) && WritesFitRequest(Buffer(w, s, ws, o).calls[s])
    ensures Inv(Buffer(w, s, ws, o))
  {
    assert CallOk(w.tables, w.clock, w.calls[s]);
    BufferLocks(w, s, ws, o);
    CallsWith(w.tables, w.clock, w.calls, s, Buffer(w, s, ws, o).calls[s]);
  }

  lemma ReleaseLocks(w: World, s: SessionId, phase: Phase)
    requires LocksOk(w) && s in w.calls
    ensures LocksOk(Release(w, s, phase))
  {
    var w' := Release(w, s, phase);
    SameRequests(w, w');
    RowLockReleased(w, w', s);
    KeyLockReleased(w, w', s);
  }

  lemma ReleaseKeeps(w: World, s: SessionId, phase: Phase)
    requires Inv(w) && s in w.calls && (phase.Unwinding? || phase.Finished?)
    ensures Inv(Release(w, s, phase))
  {
    ReleaseLocks(w, s, phase);
    CallsWith(w.tables, w.clock, w.calls, s, Release(w, s, phase).calls[s]);
  }

  /** A row that another session holds is not the one committed. */
  lemma RowFramed(w: World, s: SessionId, s': SessionId, row: Approval)
    requires Inv(w) && s in w.calls && s' in w.calls && s != s' && w.calls[s].phase.Writing?
    requires HoldsRow(w.tables, w.calls[s'], row)
    ensures HoldsRow(Install(w.tables, w.calls[s].writes), w.calls[s'], row)
  {
    assert WritesOwned(w.tables, w.calls[s]);
    DistinctLocks(w, s, s');
  }

  /** A commit leaves every other open transaction as valid as it was: their locks keep them apart. */
  lemma CommitFrames(w: World, s: SessionId, s': SessionId)
    requires Inv(w) && s in w.calls && s' in w.calls && s != s' && w.calls[s].phase.Writing?
    ensures CallOk(Install(w.tables, w.calls[s].writes), w.clock, w.calls[s'])
  {
    var t, ws, c := w.tables, w.calls[s].writes, w.calls[s'];
    assert WritesOwned(t, w.calls[s]);
    assert CallOk(t, w.clock, c);
    InstallEvolves(t, ws);
    match c.phase
    case Begin => IdsFramed(w, s, s');
    case ActionAllowed => IdsFramed(w, s, s');
    case Locked(row) => RowFramed(w, s, s', row);
    case Authorised(row) => RowFramed(w, s, s', row);
    case Timed(row, _, _) => RowFramed(w, s, s', row);
    case Permitted(row, _, _) => RowFramed(w, s, s', row);
    case Granting(row, _, _) => RowFramed(w, s, s', row);
    case Writing(_) =>
      IdsFramed(w, s, s');
      WritesFramed(w, s, s');
    case _ =>
  }

  lemma IdsFramed(w: World, s: SessionId, s': SessionId)
    requires Inv(w) && s in w.calls && s' in w.calls && s != s' && w.calls[s].phase.Writing?
    ensures IdsUnused(w.tables, w.calls[s'].request) ==>
              IdsUnused(Install(w.tables, w.calls[s].writes), w.calls[s'].request)
  {
    assert WritesOwned(w.tables, w.calls[s]);
  }

  lemma WritesFramed(w: World, s: SessionId, s': SessionId)
    requires Inv(w) && s in w.calls && s' in w.calls && s != s'
    requires w.calls[s].phase.Writing? && w.calls[s'].phase.Writing?
    ensures WritesOwned(Install(w.tables, w.calls[s].writes), w.calls[s'])
  {
    assert WritesOwned(w.tables, w.calls[s]);
    assert WritesOwned(w.tables, w.calls[s']);
    WritesApart(w, s, s');
    SoundFramed(w.tables, w.calls[s].writes, w.calls[s'].writes);
  }

  /** Locks and fresh identifiers keep two open transactions on different rows. */
  lemma WritesApart(w: World, s: SessionId, s': SessionId)
    requires LocksOk(w) && s in w.calls && s' in w.calls && s != s'
    requires WritesOwned(w.tables, w.calls[s]) && WritesOwned(w.tables, w.calls[s'])
    ensures Apart(w.calls[s].writes, w.calls[s'].writes)
  {
    DistinctIds(w, s, s');
    DistinctLocks(w, s, s');
  }

  lemma DistinctLocks(w: World, s: SessionId, s': SessionId)
    requires RowLocksOk(w) && KeyLocksOk(w) && s in w.calls && s' in w.calls && s != s'
    ensures w.calls[s].held.Some? ==> w.calls[s].held != w.calls[s'].held
    ensures w.calls[s].key.Some? ==> w.calls[s].key != w.calls[s'].key
  {
  }

  lemma CommitCalls(w: World, s: SessionId, c: Call)
    requires Inv(w) && s in w.calls && w.calls[s].phase.Writing?
    requires CallOk(Install(w.tables, w.calls[s].writes), w.clock, c)
    ensures CallsOk(Install(w.tables, w.calls[s].writes), w.clock, w.calls[s := c])
  {
    forall s' | s' in w.calls && s' != s ensures CallOk(Install(w.tables, w.calls[s].writes), w.clock, w.calls[s']) {
      CommitFrames(w, s, s');
    }
  }

  lemma CommitLocks(w: World, s: SessionId, phase: Phase)
    requires LocksOk(w) && s in w.calls
    ensures LocksOk(Commit(w, s, phase))
  {
    ReleaseLocks(w.(tables := Install(w.tables, w.calls[s].writes)), s, phase);
  }

  lemma CommitTables(w: World, s: SessionId)
    requires TablesOk(w.tables) && s in w.calls && CallOk(w.tables, w.clock, w.calls[s]) && w.calls[s].phase.Writing?
    ensures TablesOk(Install(w.tables, w.calls[s].writes))
  {
    assert WritesOwned(w.tables, w.calls[s]);
    InstallKeepsTables(w.tables, w.calls[s].writes);
  }

  lemma CommitKeeps(w: World, s: SessionId, phase: Phase)
    requires Inv(w) && s in w.calls && w.calls[s].phase.Writing? && (phase.Unwinding? || phase.Finished?)
    ensures Inv(Commit(w, s, phase))
  {
    CommitTables(w, s);
    CommitLocks(w, s, phase);
    CommitCalls(w, s, Commit(w, s, phase).calls[s]);
  }

  // ---------------------------------------------------------------- each step

  lemma FirstStepKeeps(w: World, s: SessionId)
    requires Inv(w) && s in w.calls && w.calls[s].phase == Begin && !Blocked(w, s)
    ensures Inv(FirstStep(w, s))
  {
    match w.calls[s].request
    case RequestAction(_, _, _, _, _) => RequestStepKeeps(w, s);
    case GetApproval(_) => ReadStepKeeps(w, s);
    case Approve(_, id, _) => LockStepKeeps(w, s, id);
    case Reject(_, id, _) => LockStepKeeps(w, s, id);
    case AssignRole(_, user, role) => RoleTargetKeeps(w, s, user, role);
    case RemoveRole(_, user, role) => RoleTargetKeeps(w, s, user, role);
    case CreateUser(_) => CreateUserKeeps(w, s);
  }

  lemma RequestStepKeeps(w: World, s: SessionId)
    requires Inv(w) && s in w.calls && w.calls[s].phase == Begin && w.calls[s].request.RequestAction?
    ensures Inv(FirstStep(w, s))
  {
    var c := w.calls[s];
    assert CallOk(w.tables, w.clock, c);
    var found := LookupActionTool(c.request.registry, c.request.tool, c.request.arguments);
    if found.Err? {
      PutKeeps(w, s, c.(phase := Finished(Failed(found.error))));
    } else {
      PutKeeps(w, s, c.(phase := ActionAllowed));
      RaiseKeeps(w, s, ToolPermissionDenied);
    }
  }

  lemma ReadStepKeeps(w: World, s: SessionId)
    requires Inv(w) && s in w.calls && w.calls[s].phase == Begin && w.calls[s].request.GetApproval?
    ensures Inv(FirstStep(w, s))
  {
    var c := w.calls[s];
    assert CallOk(w.tables, w.clock, c);
    if c.request.id in w.tables.approvals {
      PutKeeps(w, s, c.(phase := RowRead(w.tables.approvals[c.request.id])));
    } else {
      RaiseKeeps(w, s, ApprovalNotFound);
    }
  }

  lemma LockStepKeeps(w: World, s: SessionId, id: ApprovalId)
    requires Inv(w) && s in w.calls && w.calls[s].phase == Begin && DecidedRow(w.calls[s].request) == Some(id)
    requires id !in w.rowLocks
    ensures Inv(FirstStep(w, s))
  {
    if id in w.tables.approvals {
      TakeRowKeeps(w, s, id);
    } else {
      RaiseKeeps(w, s, ApprovalNotFound);
    }
  }

  lemma CreateUserKeeps(w: World, s: SessionId)
    requires Inv(w) && s in w.calls && w.calls[s].phase == Begin && w.calls[s].request.CreateUser?
    ensures Inv(FirstStep(w, s))
  {
    var user := w.calls[s].request.newUser;
    assert CallOk(w.tables, w.clock, w.calls[s]);
    RaiseKeeps(w, s, DefaultRoleMissing);
    NewKeyIsFree(w, s, user);
    BufferKeeps(w, s, CreateUserWrites(user), UserCreated);
  }

  lemma RoleTargetKeeps(w: World, s: SessionId, user: UserId, role: string)
    requires Inv(w) && s in w.calls && w.calls[s].phase == Begin
    requires w.calls[s].request.AssignRole? || w.calls[s].request.RemoveRole?
    ensures Inv(FindRoleTarget(w, s, user, role))
  {
    var c := w.calls[s];
    assert CallOk(w.tables, w.clock, c);
    RaiseKeeps(w, s, UserNotFound);
    RaiseKeeps(w, s, RoleNotFound);
    if user in w.tables.users {
      PutKeeps(w, s, c.(phase := RoleTarget(Grant(user, role))));
    }
  }

  /** Nobody can be writing a grant of a user that is not committed yet. */
  lemma NewKeyIsFree(w: World, s: SessionId, user: UserId)
    requires Inv(w) && s in w.calls && w.calls[s].phase == Begin && w.calls[s].request == CreateUser(user)
    ensures Grant(user, DEFAULT_ROLE) !in w.keyLocks
  {
    var g := Grant(user, DEFAULT_ROLE);
    assert CallOk(w.tables, w.clock, w.calls[s]);
    if g in w.keyLocks {
      DistinctIds(w, s, w.keyLocks[g]);
      assert false;
    }
  }

  lemma CreateApprovalKeeps(w: World, s: SessionId)
    requires Inv(w) && s in w.calls && w.calls[s].phase == ActionAllowed
    ensures Inv(CreateApproval(w, s))
  {
    var c := w.calls[s];
    assert CallOk(w.tables, w.clock, c);
    var ws := RequestWrites(c.request.newId, c.request.actor, c.request.tool, c.request.arguments, w.clock);
    assert IsRequest(w.tables, ws);
    BufferKeeps(w, s, ws, Snapshot(c.request.newId, ws.approval.value.1));
  }

  lemma ReportApprovalKeeps(w: World, s: SessionId, row: Approval)
    requires Inv(w) && s in w.calls && w.calls[s].phase == RowRead(row)
    ensures Inv(ReportApproval(w, s, row))
  {
    assert CallOk(w.tables, w.clock, w.calls[s]);
    PutKeeps(w, s, ReportApproval(w, s, row).calls[s]);
  }

  lemma CheckDeciderKeeps(w: World, s: SessionId, row: Approval)
    requires Inv(w) && s in w.calls && w.calls[s].phase == Locked(row)
    ensures Inv(CheckDecider(w, s, row))
  {
    assert CallOk(w.tables, w.clock, w.calls[s]);
    if HasPermission(w, w.calls[s].request.approver, DECIDE) {
      PutKeeps(w, s, w.calls[s].(phase := Authorised(row)));
    } else {
      RaiseKeeps(w, s, PermissionDenied);
    }
  }

  lemma CloseKeeps(w: World, s: SessionId, id: ApprovalId, row: Approval, actor: UserId, expire: bool, o: Outcome)
    requires Inv(w) && s in w.calls && w.calls[s].phase == Authorised(row) && w.calls[s].held == Some(id)
    requires row.status == Pending && expire == (w.clock >= row.expiresAt) && (!expire ==> w.calls[s].request.Reject?)
    requires DecidedRow(w.calls[s].request) == Some(id) && w.calls[s].request.approver == actor
    ensures Inv(Buffer(w, s, if expire then ExpireWrites(id, row, actor, w.clock)
                             else RejectWrites(id, row, actor, w.clock), o))
  {
    var ws := if expire then ExpireWrites(id, row, actor, w.clock) else RejectWrites(id, row, actor, w.clock);
    assert CallOk(w.tables, w.clock, w.calls[s]);
    assert RowOk(row);
    assert IsClosing(w.tables, ws);
    BufferKeeps(w, s, ws, o);
  }

  lemma CheckPendingKeeps(w: World, s: SessionId, row: Approval)
    requires Inv(w) && s in w.calls && w.calls[s].phase == Authorised(row)
    ensures Inv(CheckPending(w, s, row))
  {
    var c := w.calls[s];
    assert CallOk(w.tables, w.clock, c);
    if row.status != Pending || PendingTool(c.request.registry, row) == None {
      RaiseKeeps(w, s, StateConflict);
    } else if w.clock >= row.expiresAt {
      OverdueKeeps(w, s, row);
    } else if c.request.Approve? {
      PutKeeps(w, s, c.(phase := Timed(row, w.clock, PendingTool(c.request.registry, row).value)));
    } else {
      RejectKeeps(w, s, row);
    }
  }

  /** Both decisions close an overdue row alike, and reject closes one that is due. */
  lemma ClosingStep(w: World, s: SessionId, row: Approval)
    requires s in w.calls && DecidedRow(w.calls[s].request).Some? && row.status == Pending
    requires PendingTool(w.calls[s].request.registry, row).Some?
    ensures
      var r := w.calls[s].request;
      w.clock >= row.expiresAt ==>
        CheckPending(w, s, row) == Buffer(w, s, ExpireWrites(r.id, row, r.approver, w.clock), Failed(StateConflict))
    ensures
      var r := w.calls[s].request;
      var ws := RejectWrites(r.id, row, r.approver, w.clock);
      w.clock < row.expiresAt && r.Reject? ==>
        CheckPending(w, s, row) == Buffer(w, s, ws, Snapshot(r.id, ws.approval.value.1))
  {
  }

  lemma OverdueKeeps(w: World, s: SessionId, row: Approval)
    requires Inv(w) && s in w.calls && w.calls[s].phase == Authorised(row) && DecidedRow(w.calls[s].request).Some?
    requires row.status == Pending && w.clock >= row.expiresAt
    requires PendingTool(w.calls[s].request.registry, row).Some?
    ensures Inv(CheckPending(w, s, row))
  {
    var r := w.calls[s].request;
    assert CallOk(w.tables, w.clock, w.calls[s]);
    CloseKeeps(w, s, r.id, row, r.approver, true, Failed(StateConflict));
    ClosingStep(w, s, row);
  }

  lemma RejectKeeps(w: World, s: SessionId, row: Approval)
    requires Inv(w) && s in w.calls && w.calls[s].phase == Authorised(row) && w.calls[s].request.Reject?
    requires row.status == Pending && w.clock < row.expiresAt
    requires PendingTool(w.calls[s].request.registry, row).Some?
    ensures Inv(CheckPending(w, s, row))
  {
    var r := w.calls[s].request;
    assert CallOk(w.tables, w.clock, w.calls[s]);
    var ws := RejectWrites(r.id, row, r.approver, w.clock);
    CloseKeeps(w, s, r.id, row, r.approver, false, Snapshot(r.id, ws.approval.value.1));
    ClosingStep(w, s, row);
  }

  lemma CheckRequesterKeeps(w: World, s: SessionId, row: Approval, now: Time, tool: Tool)
    requires Inv(w) && s in w.calls && w.calls[s].phase == Timed(row, now, tool)
    ensures Inv(CheckRequester(w, s, row, now, tool))
  {
    assert CallOk(w.tables, w.clock, w.calls[s]);
    RaiseKeeps(w, s, PermissionDenied);
    PutKeeps(w, s, w.calls[s].(phase := Permitted(row, now, tool)));
  }

  lemma RunExecutorKeeps(w: World, s: SessionId, row: Approval, now: Time, tool: Tool)
    requires Inv(w) && s in w.calls && w.calls[s].phase == Permitted(row, now, tool)
    ensures Inv(RunExecutor(w, s, row, now, tool))
  {
    assert CallOk(w.tables, w.clock, w.calls[s]);
    if tool.approvalExecutor == None {
      RaiseKeeps(w, s, StateConflict);
    } else if tool.approvalExecutor == Some(OtherExecutor) || row.arguments == Unparseable {
      RaiseKeeps(w, s, ToolExecution);
    } else if row.arguments.user !in w.tables.users || SUPPORT_ROLE !in w.catalog {
      RaiseKeeps(w, s, StateConflict);
    } else {
      PutKeeps(w, s, w.calls[s].(phase := Granting(row, now, Grant(row.arguments.user, SUPPORT_ROLE))));
    }
  }

  lemma InsertApprovedGrantKeeps(w: World, s: SessionId, row: Approval, now: Time, g: Grant)
    requires Inv(w) && s in w.calls && w.calls[s].phase == Granting(row, now, g) && !Blocked(w, s)
    ensures Inv(InsertApprovedGrant(w, s, row, now, g))
  {
    var c := w.calls[s];
    assert CallOk(w.tables, w.clock, c);
    var ws := ExecuteWrites(c.request.id, row, c.request.approver, now, g, g !in w.tables.grants);
    assert IsExecution(w.tables, ws);
    BufferKeeps(w, s, ws, Snapshot(c.request.id, ExecutedRow(row, c.request.approver, now)));
  }

  lemma ChangeRoleKeeps(w: World, s: SessionId, g: Grant)
    requires Inv(w) && s in w.calls && w.calls[s].phase == RoleTarget(g) && !Blocked(w, s)
    ensures Inv(ChangeRole(w, s, g))
  {
    var c := w.calls[s];
    assert CallOk(w.tables, w.clock, c);
    if c.request.AssignRole? {
      var ws := AssignWrites(c.request.actor, g, g !in w.tables.grants);
      assert IsRoleChange(w.tables, ws);
      BufferKeeps(w, s, ws, RoleChange(g !in w.tables.grants));
    } else {
      PutKeeps(w, s, ChangeRole(w, s, g).calls[s]);
    }
  }

  lemma DeleteSeenKeeps(w: World, s: SessionId, g: Grant, seen: Option<TupleId>)
    requires Inv(w) && s in w.calls && w.calls[s].phase == Scanned(g, seen) && !Blocked(w, s)
    ensures Inv(DeleteSeen(w, s, g, seen))
  {
    var c := w.calls[s];
    assert CallOk(w.tables, w.clock, c);
    var removed := seen.Some? && g in w.tables.grants && w.tables.grants[g] == seen.value;
    var ws := RemoveWrites(c.request.actor, g, removed);
    assert IsRoleChange(w.tables, ws);
    BufferKeeps(w, s, ws, RoleChange(removed));
  }

  lemma DecisionStepKeeps(w: World, s: SessionId)
    requires Inv(w) && Running(w, s) && !Blocked(w, s)
    requires var p := w.calls[s].phase; p.Locked? || p.Authorised? || p.Timed? || p.Permitted? || p.Granting?
    ensures Inv(NextStep(w, s))
  {
    match w.calls[s].phase
    case Locked(row) => CheckDeciderKeeps(w, s, row);
    case Authorised(row) => CheckPendingKeeps(w, s, row);
    case Timed(row, now, tool) => CheckRequesterKeeps(w, s, row, now, tool);
    case Permitted(row, now, tool) => RunExecutorKeeps(w, s, row, now, tool);
    case Granting(row, now, g) => InsertApprovedGrantKeeps(w, s, row, now, g);
  }

  lemma NextStepKeeps(w: World, s: SessionId)
    requires Inv(w) && Running(w, s) && !Blocked(w, s)
    ensures Inv(NextStep(w, s))
  {
    match w.calls[s].phase
    case Begin => FirstStepKeeps(w, s);
    case ActionAllowed => CreateApprovalKeeps(w, s);
    case RowRead(row) => ReportApprovalKeeps(w, s, row);
    case RoleTarget(g) => ChangeRoleKeeps(w, s, g);
    case Scanned(g, seen) => DeleteSeenKeeps(w, s, g, seen);
    case Writing(o) => CommitKeeps(w, s, AfterCommit(o));
    case Unwinding(o) => ReleaseKeeps(w, s, Finished(o));
    case _ => DecisionStepKeeps(w, s);
  }

  lemma OpenKeeps(w: World, s: SessionId, r: Request)
    requires Inv(w) && Allowed(w, Open(s, r))
    ensures Inv(Apply(w, Open(s, r)))
  {
    var w' := Apply(w, Open(s, r));
    CallsWith(w.tables, w.clock, w.calls, s, w'.calls[s]);
    OpenLocks(w, s, r);
  }

  lemma OpenLocks(w: World, s: SessionId, r: Request)
    requires LocksOk(w) && Allowed(w, Open(s, r))
    ensures LocksOk(Apply(w, Open(s, r)))
  {
    var w' := Apply(w, Open(s, r));
    NewcomerLocks(w, s, r);
    assert IdsDistinct(w');
  }

  lemma NewcomerLocks(w: World, s: SessionId, r: Request)
    requires RowLocksOk(w) && KeyLocksOk(w) && s !in w.calls
    ensures
      var w' := Put(w, s, Call(r, Begin, None, None, NO_WRITES));
      RowLocksOk(w') && KeyLocksOk(w')
  {
  }

  lemma TickKeeps(w: World, now: Time)
    requires Inv(w) && now >= w.clock
    ensures Inv(w.(clock := now))
  {
    forall s | s in w.calls ensures CallOk(w.tables, now, w.calls[s]) {
      assert CallOk(w.tables, w.clock, w.calls[s]);
    }
    SameRequests(w, w.(clock := now));
    SameRowLocks(w, w.(clock := now));
    SameKeyLocks(w, w.(clock := now));
  }

  /** Every action of every session keeps the invariant. */
  lemma ApplyKeeps(w: World, a: Action)
    requires Inv(w) && Allowed(w, a)
    ensures Inv(Apply(w, a))
  {
    match a
    case Open(s, r) => OpenKeeps(w, s, r);
    case Advance(s) => NextStepKeeps(w, s);
    case Fault(s) => RaiseKeeps(w, s, Unavailable);
    case LoseAcknowledgement(s) => CommitKeeps(w, s, Unwinding(Failed(Unavailable)));
    case Tick(now) => TickKeeps(w, now);
  }

  lemma InitialInv(w: World)
    requires Initial(w)
    ensures Inv(w)
  {
  }

  lemma {:induction false} RunInv(ws: seq<World>, i: nat)
    requires Run(ws) && i < |ws|
    ensures Inv(ws[i])
  {
    if i == 0 {
      InitialInv(ws[0]);
    } else {
      RunInv(ws, i - 1);
      assert StepAt(ws, i - 1);
      var a :| Allowed(ws[i - 1], a) && ws[i] == Apply(ws[i - 1], a);
      ApplyKeeps(ws[i - 1], a);
    }
  }

  lemma StepKeepsTables(w: World, s: SessionId)
    requires s in w.calls && !w.calls[s].phase.Writing?
    ensures NextStep(w, s).tables == w.tables
  {
    match w.calls[s].phase
    case Begin => assert FirstStep(w, s).tables == w.tables;
    case Authorised(row) => assert CheckPending(w, s, row).tables == w.tables;
    case _ =>
  }

  /** The action commits what its session has buffered. */
  predicate Commits(w: World, a: Action) {
    (a.Advance? || a.LoseAcknowledgement?) && a.session in w.calls && w.calls[a.session].phase.Writing?
  }

  /** What a step does to the tables: nothing, or the commit of one call's sound transaction. */
  lemma StepTables(w: World, a: Action)
    requires Inv(w) && Allowed(w, a)
    ensures Commits(w, a) ==>
              && WritesOwned(w.tables, w.calls[a.session]) && WritesFitRequest(w.calls[a.session])
              && Apply(w, a).tables == Install(w.tables, w.calls[a.session].writes)
    ensures !Commits(w, a) ==> Apply(w, a).tables == w.tables
  {
    if a.Advance? || a.LoseAcknowledgement? {
      if w.calls[a.session].phase.Writing? {
        assert CallOk(w.tables, w.clock, w.calls[a.session]);
      } else {
        StepKeepsTables(w, a.session);
      }
    }
  }
}
