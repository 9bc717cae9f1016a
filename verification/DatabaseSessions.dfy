/**
 * The database server and its sessions as mutable state: committed tables, lock tables, and each
 * session's place and buffer. The methods are what one session does between two statements. Each
 * carries the state `w` its call started from and keeps the present state reachable from it.
 */
module DatabaseSessions {
  import opened Wrappers
  import opened ApprovalTypes
  import opened ApprovalMachine
  import opened ApprovalInvariant
  import opened ApprovalAuthority
  import opened ApprovalRuns

  predicate Foreign(a: Action, s: SessionId) {
    a.Tick? || (!a.Tick? && a.session != s)
  }

  class Database {
    const catalog: map<string, set<string>>
    var tables: Tables
    var clock: Time
    var rowLocks: map<ApprovalId, SessionId>
    var keyLocks: map<Grant, SessionId>
    var calls: map<SessionId, Call>

    constructor (users: set<UserId>, grants: set<Grant>, catalog: map<string, set<string>>, clock: Time)
      requires forall g :: g in grants ==> g.user in users
      ensures Initial(View()) && this.catalog == catalog && View().tables.grants.Keys == grants
    {
      this.tables := Tables(map[], map g | g in grants :: 0, 1, users, []);
      this.catalog := catalog;
      this.clock := clock;
      rowLocks, keyLocks, calls := map[], map[], map[];
    }

    function View(): World
      reads this
    {
      World(tables, catalog, clock, rowLocks, keyLocks, calls)
    }

    /** Session `s` is running request `r` and stands at `phase`. */
    predicate At(s: SessionId, r: Request, phase: Phase)
      reads this
    {
      s in calls && calls[s].request == r && calls[s].phase == phase
    }

    /** The call was cut off by `e`: its rollback comes next. */
    predicate Raised(s: SessionId, r: Request, e: Error)
      reads this
    {
      At(s, r, Unwinding(Failed(e)))
    }

    /** The state is good and was reached from `w`. */
    ghost predicate Since(w: World)
      reads this
    {
      Inv(View()) && Reaches(w, View())
    }

    method Open(s: SessionId, r: Request)
      requires Inv(View()) && s !in calls && FreshIds(View(), r)
      modifies this`calls
      ensures Since(old(View())) && At(s, r, Begin)
    {
      ghost var w := View();
      calls := calls[s := Call(r, Begin, None, None, NO_WRITES)];
      ReachesItself(w);
      ReachesStep(w, w, Action.Open(s, r));
      ReachesKeeps(w, View());
    }

    /** Any other sessions run any number of their own steps. */
    method Others(s: SessionId, ghost w: World)
      requires Since(w) && s in calls
      modifies this
      ensures Since(w) && s in calls && calls[s] == old(calls[s])
    {
      var todo: seq<Action> := *;
      for i := 0 to |todo|
        invariant Since(w) && s in calls && calls[s] == old(calls[s])
      {
        if Foreign(todo[i], s) && Allowed(View(), todo[i]) {
          ReachesStep(w, View(), todo[i]);
          ApplyCalls(View(), todo[i], s);
          ApplyKeepsCatalog(View(), todo[i]);
          ApplyKeeps(View(), todo[i]);
          var w' := Apply(View(), todo[i]);
          tables, clock, rowLocks, keyLocks, calls := w'.tables, w'.clock, w'.rowLocks, w'.keyLocks, w'.calls;
        }
      }
    }

    /** Before a statement of session `s`: others run, and the statement may fail with a database error. */
    method Interrupt(s: SessionId, ghost w: World) returns (failed: bool)
      requires Since(w) && Running(View(), s) && !calls[s].phase.Unwinding?
      modifies this
      ensures Since(w) && s in calls && calls[s].request == old(calls[s].request)
      ensures if failed then Raised(s, calls[s].request, Unavailable) else calls[s] == old(calls[s])
    {
      Others(s, w);
      failed := *;
      if failed {
        Fail(s, w);
      }
    }

    /** A database error in session `s`. */
    method Fail(s: SessionId, ghost w: World)
      requires Since(w) && Running(View(), s) && !calls[s].phase.Unwinding?
      modifies this`calls
      ensures Since(w) && Raised(s, old(calls[s]).request, Unavailable)
    {
      ghost var w1 := View();
      RaiseError(s, Unavailable);
      ReachesStep(w, w1, Fault(s));
      ApplyKeeps(w1, Fault(s));
    }

    /** Session `s` took the machine's next step, from `w1` to the present state. */
    ghost method Stepped(s: SessionId, w: World, w1: World)
      requires Inv(w1) && Reaches(w, w1) && Running(w1, s) && !Blocked(w1, s)
      requires View() == NextStep(w1, s)
      ensures Since(w)
    {
      assert Allowed(w1, Advance(s));
      ReachesStep(w, w1, Advance(s));
      ApplyKeeps(w1, Advance(s));
    }

    /** Session `s` takes a step that raises `e`. */
    method Refuse(s: SessionId, ghost w: World, e: Error)
      requires Since(w) && Running(View(), s) && !Blocked(View(), s) && NextStep(View(), s) == Raise(View(), s, e)
      modifies this`calls
      ensures Since(w) && Raised(s, old(calls[s]).request, e)
    {
      ghost var w1 := View();
      RaiseError(s, e);
      Stepped(s, w, w1);
    }

    /** The server installed the transaction of `s` but the session saw an error. */
    ghost method Unacknowledged(s: SessionId, w: World, w1: World)
      requires Inv(w1) && Reaches(w, w1) && s in w1.calls && w1.calls[s].phase.Writing?
      requires View() == Commit(w1, s, Unwinding(Failed(Unavailable)))
      ensures Since(w)
    {
      ReachesStep(w, w1, LoseAcknowledgement(s));
      ApplyKeeps(w1, LoseAcknowledgement(s));
    }

    method Move(s: SessionId, phase: Phase)
      requires s in calls
      modifies this`calls
      ensures View() == Go(old(View()), s, phase)
    {
      calls := calls[s := calls[s].(phase := phase)];
    }

    method RaiseError(s: SessionId, error: Error)
      requires s in calls
      modifies this`calls
      ensures View() == Raise(old(View()), s, error)
    {
      calls := calls[s := calls[s].(phase := Unwinding(Failed(error)), writes := NO_WRITES)];
    }

    /** Adds rows and events to the session and flushes them; a changed grant is key-locked. */
    method Flush(s: SessionId, ws: Writes, outcome: Outcome)
      requires s in calls
      modifies this`calls, this`keyLocks
      ensures View() == Buffer(old(View()), s, ws, outcome)
    {
      if !ws.grant.NoGrant? {
        keyLocks := keyLocks[ws.grant.grant := s];
        calls := calls[s := calls[s].(key := Some(ws.grant.grant))];
      }
      calls := calls[s := calls[s].(phase := Writing(outcome), writes := ws)];
    }

    method ReleaseLocks(s: SessionId, phase: Phase)
      requires s in calls
      modifies this`calls, this`rowLocks, this`keyLocks
      ensures View() == Release(old(View()), s, phase)
    {
      if calls[s].held.Some? {
        rowLocks := rowLocks - {calls[s].held.value};
      }
      if calls[s].key.Some? {
        keyLocks := keyLocks - {calls[s].key.value};
      }
      calls := calls[s := Call(calls[s].request, phase, None, None, NO_WRITES)];
    }

    /** Waits for a user_roles key, until it is free or a database error ends the wait. */
    method AwaitKey(s: SessionId, ghost w: World, g: Grant) returns (free: bool)
      requires Since(w) && Running(View(), s) && !calls[s].phase.Unwinding?
      modifies this
      ensures Since(w) && s in calls && calls[s].request == old(calls[s]).request
      ensures if free then calls[s] == old(calls[s]) && g !in keyLocks else Raised(s, calls[s].request, Unavailable)
    {
      var failed := Interrupt(s, w);
      var patience: nat := *;
      while !failed && g in keyLocks && patience > 0
        invariant Since(w) && s in calls && calls[s].request == old(calls[s]).request
        invariant if failed then Raised(s, calls[s].request, Unavailable) else calls[s] == old(calls[s])
        decreases patience
      {
        failed := Interrupt(s, w);
        patience := patience - 1;
      }
      if !failed && g in keyLocks {
        Fail(s, w);
        failed := true;
      }
      free := !failed;
    }

    /** Waits for the row lock of an approval, until it is free or a database error ends the wait. */
    method AwaitRow(s: SessionId, ghost w: World, id: ApprovalId) returns (free: bool)
      requires Since(w) && Running(View(), s) && !calls[s].phase.Unwinding?
      modifies this
      ensures Since(w) && s in calls && calls[s].request == old(calls[s]).request
      ensures if free then calls[s] == old(calls[s]) && id !in rowLocks else Raised(s, calls[s].request, Unavailable)
    {
      var failed := Interrupt(s, w);
      var patience: nat := *;
      while !failed && id in rowLocks && patience > 0
        invariant Since(w) && s in calls && calls[s].request == old(calls[s]).request
        invariant if failed then Raised(s, calls[s].request, Unavailable) else calls[s] == old(calls[s])
        decreases patience
      {
        failed := Interrupt(s, w);
        patience := patience - 1;
      }
      if !failed && id in rowLocks {
        Fail(s, w);
        failed := true;
      }
      free := !failed;
    }

    /** session.rollback(): the buffer is dropped, the locks are freed, the call ends with `outcome`. */
    method Rollback(s: SessionId, ghost r: Request, ghost w: World, outcome: Outcome)
      requires Since(w) && At(s, r, Unwinding(outcome))
      modifies this`calls, this`rowLocks, this`keyLocks
      ensures Since(w) && At(s, r, Finished(outcome))
    {
      ghost var w1 := View();
      ReleaseLocks(s, Finished(outcome));
      Stepped(s, w, w1);
    }

    /** session.commit(): it may fail before or after the server installed the transaction. */
    method CommitWrites(s: SessionId, ghost r: Request, ghost w: World, outcome: Outcome) returns (ok: bool)
      requires Since(w) && At(s, r, Writing(outcome))
      modifies this
      ensures Since(w)
      ensures if ok then At(s, r, AfterCommit(outcome)) else Raised(s, r, Unavailable)
      ensures ok ==> Installed(tables, old(calls[s]).writes)
    {
      var failed := Interrupt(s, w);
      if failed {
        return false;
      }
      ghost var w1 := View();
      ok := *;
      InstallBuffer(s, if ok then AfterCommit(outcome) else Unwinding(Failed(Unavailable)));
      if ok {
        Stepped(s, w, w1);
      } else {
        Unacknowledged(s, w, w1);
      }
    }

    /** The server side of a commit: the buffer becomes visible and the locks are freed. */
    method InstallBuffer(s: SessionId, phase: Phase)
      requires s in calls
      modifies this`tables, this`calls, this`rowLocks, this`keyLocks
      ensures View() == Commit(old(View()), s, phase)
      ensures Installed(tables, old(calls[s]).writes)
    {
      InstallInstalls(tables, calls[s].writes);
      tables := Install(tables, calls[s].writes);
      ReleaseLocks(s, phase);
    }

    /** The end of a call: its commit, or the rollback its handlers run. */
    method Finish(s: SessionId, ghost r: Request, ghost w: World, result: Result<Outcome, Error>) returns (o: Outcome)
      requires Since(w)
      requires result.Ok? ==> At(s, r, Writing(result.value)) && !result.value.Failed?
      requires result.Err? ==> Raised(s, r, result.error)
      modifies this
      ensures Since(w) && At(s, r, Finished(o))
      ensures o.Failed? || Ok(o) == result
      ensures result.Err? ==> o == Failed(result.error)
      ensures result.Ok? && o.Failed? ==> o == Failed(Unavailable)
      ensures !o.Failed? ==> Installed(tables, old(calls[s]).writes)
    {
      if result.Err? {
        o := Failed(result.error);
      } else {
        var ok := CommitWrites(s, r, w, result.value);
        if ok {
          return result.value;
        }
        o := Failed(Unavailable);
      }
      Rollback(s, r, w, o);
    }
  }
}
