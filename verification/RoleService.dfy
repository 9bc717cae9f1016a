/** Role assignment, role removal and user creation, statement by statement. */
module RoleService {
  import opened Wrappers
  import opened ApprovalTypes
  import opened ApprovalMachine
  import opened ApprovalInvariant
  import opened DatabaseSessions

  // ---------------------------------------------------------------- what the machine does at each statement

  lemma AssignStep(w: World, s: SessionId, g: Grant)
    requires s in w.calls && w.calls[s].phase == RoleTarget(g) && w.calls[s].request.AssignRole?
    ensures
      var created := g !in w.tables.grants;
      NextStep(w, s) == Buffer(w, s, AssignWrites(w.calls[s].request.actor, g, created), RoleChange(created))
  {
  }

  lemma ScanStep(w: World, s: SessionId, g: Grant)
    requires s in w.calls && w.calls[s].phase == RoleTarget(g) && w.calls[s].request.RemoveRole?
    ensures NextStep(w, s) == Go(w, s, Scanned(g, if g in w.tables.grants then Some(w.tables.grants[g]) else None))
    ensures !Blocked(w, s)
  {
  }

  lemma DeleteStep(w: World, s: SessionId, g: Grant, seen: Option<TupleId>)
    requires s in w.calls && w.calls[s].phase == Scanned(g, seen) && w.calls[s].request.RemoveRole?
    ensures
      var removed := seen.Some? && g in w.tables.grants && w.tables.grants[g] == seen.value;
      NextStep(w, s) == Buffer(w, s, RemoveWrites(w.calls[s].request.actor, g, removed), RoleChange(removed))
  {
  }

  lemma CreationStep(w: World, s: SessionId, user: UserId)
    requires s in w.calls && w.calls[s].phase == Begin && w.calls[s].request == CreateUser(user)
    ensures NextStep(w, s) == if DEFAULT_ROLE in w.catalog then Buffer(w, s, CreateUserWrites(user), UserCreated)
                              else Raise(w, s, DefaultRoleMissing)
    ensures !Blocked(w, s)
  {
  }

  class RBACService {
    const db: Database

    constructor (db: Database)
      ensures this.db == db
    {
      this.db := db;
    }

    /** The lookups of the user and the role. */
    method FindTarget(s: SessionId, ghost r: Request, ghost w: World, user: UserId, role: string)
      returns (g: Result<Grant, Error>)
      requires db.Since(w) && db.At(s, r, Begin)
      requires (r.AssignRole? || r.RemoveRole?) && r.user == user && r.role == role
      modifies db
      ensures db.Since(w)
      ensures if g.Ok? then g.value == Grant(user, role)
            && db.At(s, r, RoleTarget(g.value)) else db.Raised(s, r, g.error)
    {
      var failed := db.Interrupt(s, w);
      if failed {
        return Err(Unavailable);
      }
      ghost var w1 := db.View();
      assert NextStep(w1, s) == FindRoleTarget(w1, s, user, role);
      if user !in db.tables.users {
        db.RaiseError(s, UserNotFound);
        g := Err(UserNotFound);
      } else if role !in db.catalog {
        db.RaiseError(s, RoleNotFound);
        g := Err(RoleNotFound);
      } else {
        g := Ok(Grant(user, role));
        db.Move(s, RoleTarget(Grant(user, role)));
      }
      db.Stepped(s, w, w1);
    }

    /** assign_role: a reported change is committed together with its audit event. */
    method AssignRole(s: SessionId, actor: UserId, user: UserId, role: string) returns (o: Outcome)
      requires Inv(db.View()) && s !in db.calls
      modifies db
      ensures db.Since(old(db.View())) && db.At(s, Request.AssignRole(actor, user, role), Finished(o))
      ensures !o.Failed? ==>
                && o.RoleChange?
                && db.tables.audit != []
                      && db.tables.audit[|db.tables.audit| - 1] == [RoleAssigned(actor, Grant(user, role), o.changed)]
                && (o.changed ==> Grant(user, role) in db.tables.grants)
    {
      ghost var w, r := db.View(), Request.AssignRole(actor, user, role);
      db.Open(s, Request.AssignRole(actor, user, role));
      var result := PrepareAssignment(s, r, w, actor, user, role);
      o := db.Finish(s, r, w, result);
    }

    /** assign_role_in_transaction, with the insert waiting for the key. */
    method PrepareAssignment(s: SessionId, ghost r: Request, ghost w: World, actor: UserId, user: UserId, role: string)
      returns (result: Result<Outcome, Error>)
      requires db.Since(w) && db.At(s, r, Begin) && r == Request.AssignRole(actor, user, role)
      modifies db
      ensures db.Since(w)
      ensures result.Err? ==> db.Raised(s, r, result.error)
      ensures result.Ok? ==>
                && result.value.RoleChange? && db.At(s, r, Writing(result.value))
                && db.calls[s].writes == AssignWrites(actor, Grant(user, role), result.value.changed)
    {
      var target := FindTarget(s, r, w, user, role);
      if target.Err? {
        return Err(target.error);
      }
      result := InsertGrant(s, r, w, actor, target.value);
    }

    method InsertGrant(s: SessionId, ghost r: Request, ghost w: World, actor: UserId, g: Grant)
      returns (result: Result<Outcome, Error>)
      requires db.Since(w) && db.At(s, r, RoleTarget(g)) && r.AssignRole? && r.actor == actor
      modifies db
      ensures db.Since(w)
      ensures result.Err? ==> db.Raised(s, r, result.error)
      ensures result.Ok? ==>
                && result.value.RoleChange? && db.At(s, r, Writing(result.value))
                && db.calls[s].writes == AssignWrites(actor, g, result.value.changed)
    {
      var free := db.AwaitKey(s, w, g);
      if !free {
        return Err(Unavailable);
      }
      ghost var w1 := db.View();
      AssignStep(w1, s, g);
      var created := g !in db.tables.grants;
      db.Flush(s, AssignWrites(actor, g, created), RoleChange(created));
      db.Stepped(s, w, w1);
      result := Ok(RoleChange(created));
    }

    /** remove_role: the delete removes the tuple its own snapshot saw, once no one else is writing it. */
    method RemoveRole(s: SessionId, actor: UserId, user: UserId, role: string) returns (o: Outcome)
      requires Inv(db.View()) && s !in db.calls
      modifies db
      ensures db.Since(old(db.View())) && db.At(s, Request.RemoveRole(actor, user, role), Finished(o))
      ensures !o.Failed? ==>
                && o.RoleChange?
                && db.tables.audit != []
                      && db.tables.audit[|db.tables.audit| - 1] == [RoleRemoved(actor, Grant(user, role), o.changed)]
                && (o.changed ==> Grant(user, role) !in db.tables.grants)
    {
      ghost var w, r := db.View(), Request.RemoveRole(actor, user, role);
      db.Open(s, Request.RemoveRole(actor, user, role));
      var result := PrepareRemoval(s, r, w, actor, user, role);
      o := db.Finish(s, r, w, result);
    }

    method PrepareRemoval(s: SessionId, ghost r: Request, ghost w: World, actor: UserId, user: UserId, role: string)
      returns (result: Result<Outcome, Error>)
      requires db.Since(w) && db.At(s, r, Begin) && r == Request.RemoveRole(actor, user, role)
      modifies db
      ensures db.Since(w)
      ensures result.Err? ==> db.Raised(s, r, result.error)
      ensures result.Ok? ==>
                && result.value.RoleChange? && db.At(s, r, Writing(result.value))
                && db.calls[s].writes == RemoveWrites(actor, Grant(user, role), result.value.changed)
    {
      var target := FindTarget(s, r, w, user, role);
      if target.Err? {
        return Err(target.error);
      }
      var seen := TakeSnapshot(s, r, w, target.value);
      result := DeleteSeen(s, r, w, actor, target.value, seen);
    }

    /** The delete statement's snapshot of the row. */
    method TakeSnapshot(s: SessionId, ghost r: Request, ghost w: World, g: Grant) returns (seen: Option<TupleId>)
      requires db.Since(w) && db.At(s, r, RoleTarget(g)) && r.RemoveRole?
      modifies db
      ensures db.Since(w) && db.At(s, r, Scanned(g, seen))
    {
      db.Others(s, w);
      ghost var w1 := db.View();
      ScanStep(w1, s, g);
      seen := if g in db.tables.grants then Some(db.tables.grants[g]) else None;
      db.Move(s, Scanned(g, seen));
      db.Stepped(s, w, w1);
    }

    /** The second half of the delete, once its snapshot is taken. */
    method DeleteSeen(s: SessionId, ghost r: Request, ghost w: World, actor: UserId, g: Grant, seen: Option<TupleId>)
      returns (result: Result<Outcome, Error>)
      requires db.Since(w) && db.At(s, r, Scanned(g, seen)) && r.RemoveRole? && r.actor == actor
      modifies db
      ensures db.Since(w)
      ensures result.Err? ==> db.Raised(s, r, result.error)
      ensures result.Ok? ==>
                && result.value.RoleChange? && db.At(s, r, Writing(result.value))
                && db.calls[s].writes == RemoveWrites(actor, g, result.value.changed)
                && (result.value.changed <==> seen.Some? && g in db.tables.grants && db.tables.grants[g] == seen.value)
    {
      var free := AwaitDelete(s, w, g, seen);
      if !free {
        return Err(Unavailable);
      }
      ghost var w1 := db.View();
      DeleteStep(w1, s, g, seen);
      var removed := seen.Some? && g in db.tables.grants && db.tables.grants[g] == seen.value;
      db.Flush(s, RemoveWrites(actor, g, removed), RoleChange(removed));
      db.Stepped(s, w, w1);
      result := Ok(RoleChange(removed));
    }

    /** A delete waits for the key only if its snapshot saw a row. */
    method AwaitDelete(s: SessionId, ghost w: World, g: Grant, seen: Option<TupleId>) returns (free: bool)
      requires db.Since(w) && Running(db.View(), s) && !db.calls[s].phase.Unwinding?
      modifies db
      ensures db.Since(w) && s in db.calls
      ensures if free then db.calls[s] == old(db.calls[s]) && (seen.Some? ==> g !in db.keyLocks)
              else db.Raised(s, old(db.calls[s]).request, Unavailable)
    {
      if seen.Some? {
        free := db.AwaitKey(s, w, g);
      } else {
        var failed := db.Interrupt(s, w);
        free := !failed;
      }
    }

    /** create_user: the user and the default grant, committed together and without an audit event. */
    method CreateUser(s: SessionId, newUser: UserId) returns (o: Outcome)
      requires Inv(db.View()) && s !in db.calls && FreshIds(db.View(), Request.CreateUser(newUser))
      modifies db
      ensures db.Since(old(db.View())) && db.At(s, Request.CreateUser(newUser), Finished(o))
      ensures !o.Failed? ==>
                o == UserCreated && newUser in db.tables.users && Grant(newUser, "user") in db.tables.grants
    {
      ghost var w, r := db.View(), Request.CreateUser(newUser);
      db.Open(s, Request.CreateUser(newUser));
      var result := PrepareUser(s, r, w, newUser);
      o := db.Finish(s, r, w, result);
    }

    method PrepareUser(s: SessionId, ghost r: Request, ghost w: World, newUser: UserId)
      returns (result: Result<Outcome, Error>)
      requires db.Since(w) && db.At(s, r, Begin) && r == Request.CreateUser(newUser)
      modifies db
      ensures db.Since(w)
      ensures result.Err? ==> db.Raised(s, r, result.error)
      ensures result.Ok? ==>
                result.value == UserCreated && db.At(s, r, Writing(UserCreated))
                      && db.calls[s].writes == CreateUserWrites(newUser)
    {
      var failed := db.Interrupt(s, w);
      if failed {
        return Err(Unavailable);
      }
      ghost var w1 := db.View();
      CreationStep(w1, s, newUser);
      if DEFAULT_ROLE in db.catalog {
        db.Flush(s, CreateUserWrites(newUser), UserCreated);
        result := Ok(UserCreated);
      } else {
        db.RaiseError(s, DefaultRoleMissing);
        result := Err(DefaultRoleMissing);
      }
      db.Stepped(s, w, w1);
    }
  }
}
