/** Continuations of a state: what a chosen session, or a new one, can be made to do while another stands still. */
module ApprovalPaths {
  import opened Wrappers
  import opened ApprovalTypes
  import opened ApprovalMachine
  import opened AuditTrail
  import opened ApprovalInvariant
  import opened ApprovalAuthority
  import opened ApprovalRuns
  import opened ApprovalAlone

  /** From `w` to `w'` session `s` stood still, and users and catalog were kept. */
  ghost predicate Beside(w: World, w': World, s: SessionId) {
    && Inv(w') && Reaches(w, w')
    && s in w.calls && s in w'.calls && w'.calls[s] == w.calls[s]
    && w'.catalog == w.catalog && w'.clock == w.clock && w.tables.users <= w'.tables.users
  }

  lemma BesideItself(w: World, s: SessionId)
    requires Inv(w) && s in w.calls
    ensures Beside(w, w, s)
  {
    ReachesItself(w);
  }

  lemma BesideOn(w: World, w': World, w'': World, s: SessionId)
    requires Beside(w, w', s) && Beside(w', w'', s)
    ensures Beside(w, w'', s)
  {
    ReachesOn(w, w', w'');
  }

  /** One step of any session, as a continuation. */
  lemma Stepping(w: World, a: Action)
    requires Inv(w) && Allowed(w, a)
    ensures Inv(Apply(w, a)) && Reaches(w, Apply(w, a))
    ensures w.tables.users <= Apply(w, a).tables.users && Apply(w, a).catalog == w.catalog
  {
    ReachesItself(w);
    ReachesStep(w, w, a);
    ReachesKeeps(w, Apply(w, a));
    ApplyKeepsCatalog(w, a);
  }

  lemma AdvanceBeside(w: World, t: SessionId, s: SessionId)
    requires Inv(w) && Allowed(w, Advance(t)) && s in w.calls && t != s
    ensures Beside(w, NextStep(w, t), s)
  {
    Stepping(w, Advance(t));
    ApplyCalls(w, Advance(t), s);
    StepKeepsClock(w, t);
  }

  lemma OpenBeside(w: World, t: SessionId, r: Request, s: SessionId)
    requires Inv(w) && Allowed(w, Open(t, r)) && s in w.calls
    ensures Beside(w, Apply(w, Open(t, r)), s)
  {
    Stepping(w, Open(t, r));
  }

  // ---------------------------------------------------------------- fresh sessions and free keys

  lemma Above(s: set<nat>) returns (n: nat)
    ensures forall x | x in s :: x < n
    decreases |s|
  {
    n := 0;
    if s != {} {
      var x :| x in s;
      var m := Above(s - {x});
      n := if x < m then m else x + 1;
      assert forall y | y in s :: y == x || y in s - {x};
    }
  }

  lemma FreshSession(w: World) returns (t: SessionId)
    ensures t !in w.calls
  {
    t := Above(w.calls.Keys);
  }

  /** Whoever holds a key has only its commit or its rollback left, so the key can be freed. */
  lemma FreeKey(w: World, g: Grant, s: SessionId) returns (w': World)
    requires Inv(w) && s in w.calls && w.calls[s].key == None
    ensures Beside(w, w', s) && g !in w'.keyLocks
    ensures forall t | t in w.calls && w.calls[t].key == None :: t in w'.calls && w'.calls[t] == w.calls[t]
  {
    if g in w.keyLocks {
      var o := w.keyLocks[g];
      assert o in w.calls && w.calls[o].key == Some(g) && CallOk(w.tables, w.clock, w.calls[o]);
      assert Allowed(w, Advance(o));
      w' := NextStep(w, o);
      AdvanceBeside(w, o, s);
      forall t | t in w.calls && w.calls[t].key == None ensures t in w'.calls && w'.calls[t] == w.calls[t] {
        ApplyCalls(w, Advance(o), t);
      }
    } else {
      w' := w;
      BesideItself(w, s);
    }
  }

  // ---------------------------------------------------------------- giving a role, creating a user

  lemma AssignEffects(w: World, t: SessionId, g: Grant)
    requires t in w.calls && w.calls[t].phase == RoleTarget(g) && w.calls[t].request.AssignRole?
    ensures
      var w1 := NextStep(w, t);
      t in w1.calls && w1.calls[t].phase.Writing? && g in NextStep(w1, t).tables.grants
  {
  }

  lemma AssignCommits(w: World, t: SessionId, g: Grant, s: SessionId) returns (w': World)
    requires Inv(w) && s in w.calls && t in w.calls && t != s && g !in w.keyLocks
    requires w.calls[t].phase == RoleTarget(g) && w.calls[t].request.AssignRole?
    ensures Beside(w, w', s) && g in w'.tables.grants
  {
    AssignEffects(w, t, g);
    AdvanceBeside(w, t, s);
    var w1 := NextStep(w, t);
    AdvanceBeside(w1, t, s);
    w' := NextStep(w1, t);
    BesideOn(w, w1, w', s);
  }

  lemma EnsureGrant(w: World, user: UserId, role: string, s: SessionId) returns (w': World)
    requires Inv(w) && s in w.calls && w.calls[s].key == None
    requires user in w.tables.users && role in w.catalog
    ensures Beside(w, w', s) && Grant(user, role) in w'.tables.grants
  {
    var t := FreshSession(w);
    var r := AssignRole(user, user, role);
    var w1 := Apply(w, Open(t, r));
    OpenBeside(w, t, r, s);
    var w2 := NextStep(w1, t);
    AdvanceBeside(w1, t, s);
    assert w2.calls[t] == w1.calls[t].(phase := RoleTarget(Grant(user, role)));
    BesideOn(w, w1, w2, s);
    var w3 := FreeKey(w2, Grant(user, role), s);
    BesideOn(w, w2, w3, s);
    w' := AssignCommits(w3, t, Grant(user, role), s);
    BesideOn(w, w3, w', s);
  }

  lemma CreationCommits(w: World, t: SessionId, user: UserId, s: SessionId) returns (w': World)
    requires Inv(w) && s in w.calls && t in w.calls && t != s
    requires w.calls[t].phase.Writing? && w.calls[t].request == CreateUser(user)
    ensures Beside(w, w', s) && user in w'.tables.users
  {
    assert CallOk(w.tables, w.clock, w.calls[t]);
    AdvanceBeside(w, t, s);
    w' := NextStep(w, t);
  }

  lemma CreationStarts(w: World, t: SessionId, user: UserId, s: SessionId) returns (w': World)
    requires Inv(w) && s in w.calls && t in w.calls && t != s && DEFAULT_ROLE in w.catalog
    requires w.calls[t].phase == Begin && w.calls[t].request == CreateUser(user)
    ensures Beside(w, w', s) && user in w'.tables.users
  {
    AdvanceBeside(w, t, s);
    var w1 := NextStep(w, t);
    w' := CreationCommits(w1, t, user, s);
    BesideOn(w, w1, w', s);
  }

  /** A user that does not exist can still be created: its call is on the way, or its identifier was never drawn. */
  predicate Creatable(w: World, user: UserId) {
    || (exists t | t in w.calls :: w.calls[t].request == CreateUser(user) && w.calls[t].phase.Writing?)
    || (DEFAULT_ROLE in w.catalog
        && forall t | t in w.calls && w.calls[t].request == CreateUser(user) :: w.calls[t].phase.Begin?)
  }

  predicate Obtainable(w: World, user: UserId) {
    user in w.tables.users || Creatable(w, user)
  }

  lemma EnsureUser(w: World, user: UserId, s: SessionId) returns (w': World)
    requires Inv(w) && s in w.calls && !w.calls[s].request.CreateUser? && Obtainable(w, user)
    ensures Beside(w, w', s) && user in w'.tables.users
  {
    if user in w.tables.users {
      w' := w;
      BesideItself(w, s);
    } else if t :| t in w.calls && w.calls[t].request == CreateUser(user) && w.calls[t].phase.Writing? {
      w' := CreationCommits(w, t, user, s);
    } else if t :| t in w.calls && w.calls[t].request == CreateUser(user) {
      w' := CreationStarts(w, t, user, s);
    } else {
      var t := FreshSession(w);
      var w1 := Apply(w, Open(t, CreateUser(user)));
      OpenBeside(w, t, CreateUser(user), s);
      w' := CreationStarts(w1, t, user, s);
      BesideOn(w, w1, w', s);
    }
  }
}
