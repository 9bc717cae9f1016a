/** What assign, remove and create-user do, exactly, when no other session interferes. */
module RolesAlone {
  import opened Wrappers
  import opened ApprovalTypes
  import opened ApprovalMachine
  import opened ApprovalAlone

  /** The call of `s` has just been opened. */
  predicate Opened(w: World, s: SessionId) {
    s in w.calls && w.calls[s] == Call(w.calls[s].request, Begin, None, None, NO_WRITES)
  }

  /** The other tables are as they were, and the trail has this batch more. */
  predicate OnlyRoles(t: Tables, t': Tables, batch: seq<AuditEvent>) {
    t'.approvals == t.approvals && t'.users == t.users && t'.audit == t.audit + [batch]
  }

  lemma RoleTargetStep(w: World, s: SessionId, user: UserId, role: string)
    requires Opened(w, s)
    requires var r := w.calls[s].request; (r.AssignRole? || r.RemoveRole?) && r.user == user && r.role == role
    ensures
      NextStep(w, s) == if user !in w.tables.users then Raise(w, s, UserNotFound)
                        else if role !in w.catalog then Raise(w, s, RoleNotFound)
                        else Go(w, s, RoleTarget(Grant(user, role)))
  {
  }

  /** An unknown user or role is refused, and nothing changes. */
  lemma UnknownTargetIsRefused(w: World, s: SessionId, user: UserId, role: string, n: nat)
    requires Opened(w, s) && n >= 2
    requires var r := w.calls[s].request; (r.AssignRole? || r.RemoveRole?) && r.user == user && r.role == role
    requires user !in w.tables.users || role !in w.catalog
    ensures Ends(w, s, n, w.tables, Failed(if user !in w.tables.users then UserNotFound else RoleNotFound))
  {
    RoleTargetStep(w, s, user, role);
    FromUnwinding(NextStep(w, s), s, n - 1, Failed(if user !in w.tables.users then UserNotFound else RoleNotFound));
  }

  lemma InsertEnds(w: World, s: SessionId, g: Grant)
    requires s in w.calls && w.calls[s].phase == RoleTarget(g) && w.calls[s].request.AssignRole?
    ensures
      var w', created := Settle(w, s, 2), g !in w.tables.grants;
      && s in w'.calls && w'.calls[s].phase == Finished(RoleChange(created))
      && w'.tables.grants == (if created then w.tables.grants[g := w.tables.nextTuple] else w.tables.grants)
      && OnlyRoles(w.tables, w'.tables, [RoleAssigned(w.calls[s].request.actor, g, created)])
  {
    var created := g !in w.tables.grants;
    FromWriting(NextStep(w, s), s, 2, RoleChange(created));
    assert Settle(w, s, 2) == Settle(NextStep(w, s), s, 1);
  }

  /** Undisturbed, assign_role gives a user who exists the role, once, and says whether it was new. */
  lemma AssignsExactly(w: World, s: SessionId, actor: UserId, user: UserId, role: string)
    requires Opened(w, s) && w.calls[s].request == AssignRole(actor, user, role)
    ensures user !in w.tables.users ==> Ends(w, s, 3, w.tables, Failed(UserNotFound))
    ensures user in w.tables.users && role !in w.catalog ==> Ends(w, s, 3, w.tables, Failed(RoleNotFound))
    ensures
      var w', g := Settle(w, s, 3), Grant(user, role);
      var created := g !in w.tables.grants;
      user in w.tables.users && role in w.catalog ==>
        && s in w'.calls && w'.calls[s].phase == Finished(RoleChange(created))
        && w'.tables.grants == (if created then w.tables.grants[g := w.tables.nextTuple] else w.tables.grants)
        && OnlyRoles(w.tables, w'.tables, [RoleAssigned(actor, g, created)])
  {
    if user !in w.tables.users || role !in w.catalog {
      UnknownTargetIsRefused(w, s, user, role, 3);
    } else {
      RoleTargetStep(w, s, user, role);
      InsertEnds(NextStep(w, s), s, Grant(user, role));
    }
  }

  lemma DeleteEnds(w: World, s: SessionId, g: Grant)
    requires s in w.calls && w.calls[s].request.RemoveRole?
    requires w.calls[s].phase == Scanned(g, if g in w.tables.grants then Some(w.tables.grants[g]) else None)
    ensures
      var w', removed := Settle(w, s, 2), g in w.tables.grants;
      && s in w'.calls && w'.calls[s].phase == Finished(RoleChange(removed)) && w'.tables.grants == w.tables.grants - {g}
      && OnlyRoles(w.tables, w'.tables, [RoleRemoved(w.calls[s].request.actor, g, removed)])
  {
    var removed := g in w.tables.grants;
    FromWriting(NextStep(w, s), s, 2, RoleChange(removed));
    assert Settle(w, s, 2) == Settle(NextStep(w, s), s, 1);
  }

  lemma ScanThenDelete(w: World, s: SessionId, g: Grant)
    requires s in w.calls && w.calls[s].request.RemoveRole? && w.calls[s].phase == RoleTarget(g)
    ensures
      var w', removed := Settle(w, s, 3), g in w.tables.grants;
      && s in w'.calls && w'.calls[s].phase == Finished(RoleChange(removed)) && w'.tables.grants == w.tables.grants - {g}
      && OnlyRoles(w.tables, w'.tables, [RoleRemoved(w.calls[s].request.actor, g, removed)])
  {
    DeleteEnds(NextStep(w, s), s, g);
  }

  /** Undisturbed, remove_role takes the role away and says whether it was there. */
  lemma RemovesExactly(w: World, s: SessionId, actor: UserId, user: UserId, role: string)
    requires Opened(w, s) && w.calls[s].request == RemoveRole(actor, user, role)
    ensures user !in w.tables.users ==> Ends(w, s, 4, w.tables, Failed(UserNotFound))
    ensures user in w.tables.users && role !in w.catalog ==> Ends(w, s, 4, w.tables, Failed(RoleNotFound))
    ensures
      var w', g := Settle(w, s, 4), Grant(user, role);
      var removed := g in w.tables.grants;
      user in w.tables.users && role in w.catalog ==>
        && s in w'.calls && w'.calls[s].phase == Finished(RoleChange(removed)) && w'.tables.grants == w.tables.grants - {g}
        && OnlyRoles(w.tables, w'.tables, [RoleRemoved(actor, g, removed)])
  {
    if user !in w.tables.users || role !in w.catalog {
      UnknownTargetIsRefused(w, s, user, role, 4);
    } else {
      RoleTargetStep(w, s, user, role);
      ScanThenDelete(NextStep(w, s), s, Grant(user, role));
    }
  }

  /** Undisturbed, create_user adds the user with the role "user" and no event, unless that role is missing. */
  lemma CreatesExactly(w: World, s: SessionId, user: UserId)
    requires Opened(w, s) && w.calls[s].request == CreateUser(user)
    ensures "user" !in w.catalog ==> Ends(w, s, 2, w.tables, Failed(DefaultRoleMissing))
    ensures
      var w' := Settle(w, s, 2);
      "user" in w.catalog ==>
        && s in w'.calls && w'.calls[s].phase == Finished(UserCreated)
        && w'.tables.users == w.tables.users + {user} && w'.tables.approvals == w.tables.approvals
        && w'.tables.grants == w.tables.grants[Grant(user, "user") := w.tables.nextTuple]
        && w'.tables.audit == w.tables.audit
  {
    var w1 := NextStep(w, s);
    if "user" in w.catalog {
      FromWriting(w1, s, 2, UserCreated);
      assert Settle(w, s, 2) == Settle(w1, s, 1);
    } else {
      FromUnwinding(w1, s, 1, Failed(DefaultRoleMissing));
    }
  }
}
