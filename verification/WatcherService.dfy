/** The watcher's poll and the dispatcher it calls, statement by statement, among other clones and the Supervisor. */
module WatcherService {
  import opened Wrappers
  import opened Markers
  import opened DispatchMachine
  import opened DispatchInvariant
  import opened DispatchTheorems
  import opened DispatchRuns

  predicate Foreign(a: Action, id: CloneId) {
    a.SupervisorPush? || a.clone != id
  }

  /** The remote issue branch and the clones of it. */
  class Network {
    const env: Env
    var remote: Chain
    var clones: map<CloneId, Clone>

    constructor (env: Env, remote: Chain, ids: set<CloneId>)
      requires |remote| > 0 && forall i | 0 <= i < |remote| :: remote[i].origin == Supervisor
      ensures this.env == env && Initial(View()) && this.remote == remote && clones.Keys == ids
    {
      PrefixIsCommon(remote, remote);
      this.env := env;
      this.remote := remote;
      this.clones := map id | id in ids :: Clone(remote, remote, remote[|remote| - 1].tree, NoMemory, Idle);
    }

    function View(): World
      reads this
    {
      World(remote, clones)
    }

    predicate At(id: CloneId, phase: Phase)
      reads this
    {
      id in clones && clones[id].phase == phase
    }

    /** The state is good and was reached from `w`. */
    ghost predicate Since(w: World)
      reads this
    {
      Inv(env, View()) && Reaches(env, w, View())
    }

    /** The action `a` led from `w1` to the present state. */
    ghost method Stepped(w: World, w1: World, a: Action)
      requires Inv(env, w1) && Reaches(env, w, w1) && Allowed(w1, a) && View() == Apply(env, w1, a)
      ensures Since(w)
    {
      ReachesStep(env, w, w1, a);
      ApplyKeeps(env, w1, a);
    }

    /** The Supervisor and the other clones do anything they may do. */
    method Others(id: CloneId, ghost w: World)
      requires Since(w) && id in clones
      modifies this
      ensures Since(w) && id in clones && clones[id] == old(clones[id]) && old(remote) <= remote
    {
      var todo: seq<Action> := *;
      for i := 0 to |todo|
        invariant Since(w) && id in clones && clones[id] == old(clones[id]) && old(remote) <= remote
      {
        if Foreign(todo[i], id) && Allowed(View(), todo[i]) {
          ghost var w1 := View();
          var w' := Apply(env, View(), todo[i]);
          ApplyGrows(env, w1, todo[i]);
          remote, clones := w'.remote, w'.clones;
          Stepped(w, w1, todo[i]);
        }
      }
    }

    method Set(id: CloneId, c: Clone)
      requires id in clones
      modifies this`clones
      ensures View() == World(old(remote), old(clones)[id := c])
    {
      clones := clones[id := c];
    }
  }

  lemma PushStep(env: Env, w: World, id: CloneId, reply: PushResult)
    requires id in w.clones && w.clones[id].phase.Committed?
    ensures
      var c := w.clones[id];
      var t := c.phase.ticket;
      Apply(env, w, Action.Push(id, reply))
      == if reply == NoConnection || !(w.remote <= c.local) then w.(clones := w.clones[id := c.(phase := Halted)])
         else if reply == LostReply then World(c.local, w.clones[id := c.(phase := Halted)])
         else World(c.local, w.clones[id := Remember(c.(tracking := c.local), t.plan, Succeeded, Idle)])
  {
  }

  /** What one poll came to. */
  datatype Outcome =
    | NothingDue
    | PublishedWork(plan: Plan)
    | NothingChanged(plan: Plan)
    | TurnFailed(plan: Plan)
    | Stopped(error: DispatchError)

  class Watcher {
    const net: Network
    const id: CloneId

    constructor (net: Network, id: CloneId)
      ensures this.net == net && this.id == id
    {
      this.net, this.id := net, id;
    }

    /** What a finished poll leaves behind. */
    predicate Settled(o: Outcome)
      reads net
    {
      match o
      case NothingDue => net.At(id, Idle)
      case Stopped(_) => net.At(id, Halted)
      case TurnFailed(plan) => net.At(id, Idle) && Remembers(plan, Failed)
      case NothingChanged(plan) => net.At(id, Idle) && Remembers(plan, Succeeded)
      case PublishedWork(plan) => net.At(id, Idle) && Remembers(plan, Succeeded) && Landed(plan)
    }

    predicate Remembers(plan: Plan, status: RunStatus)
      reads net
    {
      id in net.clones && net.clones[id].memory == Memory(plan.checkpoint, status, plan.publication)
    }

    /** The remote ends with this clone's commit for the plan, on a Supervisor commit, and no work is left. */
    predicate Landed(plan: Plan)
      reads net
    {
      && id in net.clones
      && net.remote == net.clones[id].local == net.clones[id].tracking && Clean(net.env, net.clones[id])
      && |net.remote| > 1
      && net.remote[|net.remote| - 1].origin == FromClone(id)
      && net.remote[|net.remote| - 1].subject == Message(net.env.issueId, plan.checkpoint, plan.publication)
      && net.remote[|net.remote| - 2].origin == Supervisor
    }

    /** Before a git command that reaches the network: others act, and the command may fail. */
    method Interrupt(ghost w: World) returns (failed: bool)
      requires net.Since(w) && id in net.clones
      modifies net
      ensures net.Since(w) && id in net.clones && old(net.remote) <= net.remote
      ensures if failed then net.At(id, Halted) else net.clones[id] == old(net.clones[id])
    {
      net.Others(id, w);
      failed := *;
      if failed {
        ghost var w1 := net.View();
        net.Set(id, net.clones[id].(phase := Halted));
        net.Stepped(w, w1, Break(id));
      }
    }

    /** fast_forward_issue_branch. */
    method FastForward(ghost w: World) returns (r: Result<(), DispatchError>)
      requires net.Since(w) && net.At(id, Idle)
      modifies net
      ensures net.Since(w) && net.At(id, if r.Ok? then Pulled else Halted) && old(net.remote) <= net.remote
    {
      var failed := Interrupt(w);
      if failed {
        return Err(GitFailure);
      }
      ghost var w1 := net.View();
      if !Clean(net.env, net.clones[id]) {
        net.Set(id, net.clones[id].(phase := Halted));
        net.Stepped(w, w1, Proceed(id));
        return Err(DirtyWorktree);
      }
      net.Set(id, net.clones[id].(tracking := net.remote, phase := Fetched));
      net.Stepped(w, w1, Proceed(id));
      r := PullFastForward(w);
    }

    /** git pull --ff-only. */
    method PullFastForward(ghost w: World) returns (r: Result<(), DispatchError>)
      requires net.Since(w) && net.At(id, Fetched)
      modifies net
      ensures net.Since(w) && net.At(id, if r.Ok? then Pulled else Halted) && old(net.remote) <= net.remote
    {
      var failed := Interrupt(w);
      if failed {
        return Err(GitFailure);
      }
      ghost var w1 := net.View();
      var c := net.clones[id].(tracking := net.remote);
      if c.local <= net.remote {
        net.Set(id, c.(local := net.remote, phase := Pulled,
                       work := Checkout(c.work, HeadTree(c.local), HeadTree(net.remote))));
        r := Ok(());
      } else if net.remote <= c.local {
        net.Set(id, c.(phase := Pulled));
        r := Ok(());
      } else {
        net.Set(id, c.(phase := Halted));
        r := Err(GitFailure);
      }
      net.Stepped(w, w1, Proceed(id));
    }

    /**
     * The decision of run_once between its second fetch and its call of dispatch: it plans what the note owes unless
     * that is published already, which it passes over, or the clone's record holds it back, which is an error.
     */
    method NextPlan(tracking: Chain, memory: Memory) returns (r: Result<Option<Plan>, DispatchError>)
      ensures r.Ok? && r.value.Some? <==>
                && OwedIn(net.env, HeadTree(tracking)).Some?
                && !Published(tracking, Subject(net.env, OwedIn(net.env, HeadTree(tracking)).value))
                && !HeldBack(memory, OwedIn(net.env, HeadTree(tracking)).value)
      ensures r.Ok? && r.value.Some? ==>
                var owed := OwedIn(net.env, HeadTree(tracking)).value;
                r.value.value == Plan(owed.0, owed.1, owed.1.Some?)
      ensures OwedIsPublished(net.env, tracking) ==> r == Ok(None)
      ensures OwedIsHeldBack(net.env, tracking, memory) ==> r in {Err(PublicationMissing), Err(PreviouslyFailed)}
      ensures r == Decide(net.env, tracking, memory)
    {
      PollDecidesExactly(net.env, tracking, memory);
      PollOtherwise(net.env, tracking, memory);
      var note := NoteIn(net.env, HeadTree(tracking));
      if note.Err? {
        return Err(note.error);
      }
      var controls := net.env.read(note.value);
      if controls.approval.Err? {
        return Err(controls.approval.error);
      }
      var candidate := WriteAfter(controls.approval.value);
      if candidate == None {
        return Ok(None);
      }
      if controls.rework.Err? {
        return Err(controls.rework.error);
      }
      var publication: Option<string> := None;
      var force := false;
      if controls.rework.value.Some? {
        var (target, attempt) := controls.rework.value.value;
        if target != candidate.value {
          return Err(ReworkMismatch);
        }
        publication := Some(ReworkLabel(attempt));
        if Published(tracking, Message(net.env.issueId, candidate.value, publication)) {
          return Ok(None);
        }
        if memory.Memory? && memory.checkpoint == candidate.value && memory.publication == publication
           && memory.status == Failed {
          return Err(PreviouslyFailed);
        }
        force := true;
      } else {
        if Published(tracking, Message(net.env.issueId, candidate.value, None)) {
          return Ok(None);
        }
        if memory.Memory? && memory.checkpoint == candidate.value {
          return Err(if memory.status == Succeeded then PublicationMissing else PreviouslyFailed);
        }
      }
      r := Ok(Some(Plan(candidate.value, publication, force)));
    }

    /** The second fetch of run_once and what it decides. */
    method Poll(ghost w: World) returns (r: Result<Option<Plan>, DispatchError>)
      requires net.Since(w) && net.At(id, Pulled)
      modifies net
      ensures net.Since(w) && old(net.remote) <= net.remote
      ensures match r
              case Err(_) => net.At(id, Halted)
              case Ok(None) => net.At(id, Idle)
              case Ok(Some(plan)) => net.At(id, Planned(plan))
    {
      var failed := Interrupt(w);
      if failed {
        return Err(GitFailure);
      }
      ghost var w1 := net.View();
      var c := net.clones[id].(tracking := net.remote);
      r := NextPlan(c.tracking, c.memory);
      if r.Err? {
        net.Set(id, c.(phase := Halted));
      } else if r.value == None {
        net.Set(id, c.(phase := Idle));
      } else {
        net.Set(id, c.(phase := Planned(r.value.value)));
      }
      net.Stepped(w, w1, Proceed(id));
    }

    /** The checks of dispatch before it starts the executor; the ticket holds what they read. */
    method CheckStart(c: Clone, plan: Plan) returns (r: Result<Ticket, DispatchError>)
      ensures r.Ok? <==> MayStart(net.env, c, plan)
      ensures r.Ok? ==>
                && r.value.plan == plan && r.value.head == c.tracking
                && r.value.note == HeadTree(c.tracking)[net.env.notePath]
                && (IsWrite(plan.checkpoint) ==>
                      Ok(r.value.patterns) == ControlsIn(net.env, HeadTree(c.tracking)).allow)
      ensures r == Start(net.env, c, plan)
    {
      StartReadsNote(net.env, c, plan);
      if !plan.force && c.memory.Memory? && c.memory.checkpoint == plan.checkpoint && c.memory.status == Succeeded {
        return Err(AlreadySucceeded);
      }
      var note := NoteIn(net.env, HeadTree(c.tracking));
      if note.Err? {
        return Err(note.error);
      }
      var controls := net.env.read(note.value);
      if controls.approval.Err? {
        return Err(controls.approval.error);
      }
      var required := Required(plan.checkpoint);
      if required.Some? && Rank(controls.approval.value) < Rank(required.value) {
        return Err(NotApproved);
      }
      if !IsWrite(plan.checkpoint) {
        return Ok(Ticket(plan, c.tracking, note.value, []));
      }
      if !Clean(net.env, c) {
        return Err(DirtyWorktree);
      }
      if controls.allow.Err? {
        return Err(controls.allow.error);
      }
      if c.local != c.tracking {
        return Err(NotSynchronized);
      }
      r := Ok(Ticket(plan, c.tracking, note.value, controls.allow.value));
    }

    /** dispatch, up to the executor. */
    method Begin(ghost w: World, plan: Plan) returns (r: Result<Ticket, DispatchError>)
      requires net.Since(w) && net.At(id, Planned(plan))
      modifies net
      ensures net.Since(w) && old(net.remote) <= net.remote
      ensures if r.Ok? then r.value.plan == plan && net.At(id, Running(r.value)) else net.At(id, Halted)
    {
      var failed := Interrupt(w);
      if failed {
        return Err(GitFailure);
      }
      ghost var w1 := net.View();
      var c := net.clones[id].(tracking := net.remote);
      r := CheckStart(c, plan);
      net.Set(id, c.(phase := if r.Ok? then Running(r.value) else Halted));
      net.Stepped(w, w1, Proceed(id));
    }

    /** What the executor's end leaves of the clone's phase and record. */
    predicate Left(t: Ticket, result: RunResult)
      reads net
    {
      match result
      case Completed => net.At(id, Ran(t))
      case TurnFailed => net.At(id, Idle) && Remembers(t.plan, Failed)
      case Crashed => net.At(id, Halted) && Remembers(t.plan, Failed)
    }

    /** The executor: it may leave anything in the clone's working tree and branch. */
    method Execute(ghost w: World, t: Ticket) returns (result: RunResult)
      requires net.Since(w) && net.At(id, Running(t))
      modifies net
      ensures net.Since(w) && id in net.clones && old(net.remote) <= net.remote
      ensures Left(t, result)
    {
      net.Others(id, w);
      ghost var w1 := net.View();
      var work: Tree := *;
      var local: Chain := *;
      if !OwnWork(local, net.remote, id) {
        local := net.clones[id].local;
      }
      result := *;
      var c := net.clones[id].(local := local, work := work);
      if result == Completed {
        net.Set(id, c.(phase := Ran(t)));
      } else {
        net.Set(id, c.(memory := Memory(t.plan.checkpoint, Failed, t.plan.publication),
                       phase := if result.Crashed? then Halted else Idle));
      }
      net.Stepped(w, w1, Action.Execute(id, local, work, result));
    }

    /** The checks of publish_write_checkpoint; an empty set means there is nothing to publish. */
    method CheckPublication(c: Clone, t: Ticket) returns (r: Result<set<string>, DispatchError>)
      ensures r.Ok? <==> MayPublish(net.env, c, t)
      ensures r.Ok? ==> r.value == ChangedPaths(net.env, HeadTree(t.head), c.work)
      ensures r == CheckWork(net.env, c, t)
    {
      WorkIsChecked(net.env, c, t);
      if c.tracking != t.head {
        return Err(RemoteChanged);
      }
      if c.local != t.head {
        return Err(LocalHeadChanged);
      }
      var localNote := NoteIn(net.env, c.work);
      if localNote.Err? {
        return Err(localNote.error);
      }
      var kept := CheckMarkers(net.env.read(t.note), net.env.read(localNote.value));
      if kept.Err? {
        return Err(kept.error);
      }
      var changed := ChangedPaths(net.env, HeadTree(c.local), c.work);
      if exists p | p in changed :: !PathAllowed(net.env, p, t.patterns) {
        return Err(PathNotAllowed);
      }
      r := Ok(changed);
    }

    /** validate_control_markers_unchanged, one marker after the other. */
    method CheckMarkers(theirs: Controls, ours: Controls) returns (r: Result<(), DispatchError>)
      ensures r.Ok? <==> theirs == ours && theirs.approval.Ok? && theirs.allow.Ok? && theirs.rework.Ok?
      ensures r == MarkersKept(theirs, ours)
    {
      if theirs.approval.Err? {
        return Err(theirs.approval.error);
      }
      if ours.approval.Err? {
        return Err(ours.approval.error);
      }
      if ours.approval != theirs.approval {
        return Err(MarkersChanged);
      }
      if theirs.allow.Err? {
        return Err(theirs.allow.error);
      }
      if ours.allow.Err? {
        return Err(ours.allow.error);
      }
      if ours.allow != theirs.allow {
        return Err(MarkersChanged);
      }
      if theirs.rework.Err? {
        return Err(theirs.rework.error);
      }
      if ours.rework.Err? {
        return Err(ours.rework.error);
      }
      if ours.rework != theirs.rework {
        return Err(MarkersChanged);
      }
      r := Ok(());
    }

    /** publish_write_checkpoint: fetch, compare, check and commit; then push. */
    method Publish(ghost w: World, t: Ticket) returns (o: Outcome)
      requires net.Since(w) && net.At(id, Ran(t))
      modifies net
      ensures net.Since(w) && id in net.clones && old(net.remote) <= net.remote
      ensures Settled(o)
      ensures o.PublishedWork? ==> |old(net.remote)| < |net.remote|
    {
      var failed := Interrupt(w);
      if failed {
        return Stopped(GitFailure);
      }
      ghost var w1 := net.View();
      var c := net.clones[id].(tracking := net.remote);
      var changed := CheckPublication(c, t);
      var checked: bool := *;
      if changed.Err? || (changed.value != {} && !checked) {
        net.Set(id, c.(phase := Halted));
        net.Stepped(w, w1, Action.Publish(id, checked));
        return Stopped(if changed.Err? then changed.error else GitFailure);
      }
      if changed.value == {} {
        net.Set(id, c.(memory := Memory(t.plan.checkpoint, Succeeded, t.plan.publication), phase := Idle));
        net.Stepped(w, w1, Action.Publish(id, checked));
        return NothingChanged(t.plan);
      }
      var commit := Commit(FromClone(id), Message(net.env.issueId, t.plan.checkpoint, t.plan.publication),
                           CommitTree(HeadTree(c.local), c.work, changed.value));
      net.Set(id, c.(local := c.local + [commit], phase := Committed(t)));
      net.Stepped(w, w1, Action.Publish(id, checked));
      NothingLeftBehind(c, commit, changed.value);
      o := PushCommit(w, t, commit);
    }

    lemma NothingLeftBehind(c: Clone, commit: Commit, changed: set<string>)
      requires changed == ChangedPaths(net.env, HeadTree(c.local), c.work)
      requires commit.tree == CommitTree(HeadTree(c.local), c.work, changed)
      ensures Clean(net.env, c.(local := c.local + [commit]))
    {
      CommitTakesAllWork(net.env, HeadTree(c.local), c.work);
    }

    /** git push, without force: the server takes it only on top of the head it has. */
    method PushCommit(ghost w: World, t: Ticket, commit: Commit) returns (o: Outcome)
      requires net.Since(w) && net.At(id, Committed(t)) && net.clones[id].local == t.head + [commit]
      requires commit.origin == FromClone(id)
      requires commit.subject == Message(net.env.issueId, t.plan.checkpoint, t.plan.publication)
      requires Clean(net.env, net.clones[id])
      modifies net
      ensures net.Since(w) && old(net.remote) <= net.remote
      ensures Settled(o) && (o.Stopped? || o == PublishedWork(t.plan))
      ensures o.PublishedWork? ==> |old(net.remote)| < |net.remote|
    {
      net.Others(id, w);
      ghost var w1 := net.View();
      var c := net.clones[id];
      var reply: PushResult := *;
      if reply != NoConnection && net.remote <= c.local {
        PushLands(net.env, w1, id);
        net.remote := c.local;
        if reply == Acknowledged {
          net.Set(id, Remember(c.(tracking := c.local), t.plan, Succeeded, Idle));
          o := PublishedWork(t.plan);
        } else {
          net.Set(id, c.(phase := Halted));
          o := Stopped(GitFailure);
        }
      } else {
        reply := NoConnection;
        net.Set(id, c.(phase := Halted));
        o := Stopped(GitFailure);
      }
      PushStep(net.env, w1, id, reply);
      net.Stepped(w, w1, Action.Push(id, reply));
    }

    /** dispatch: the checks, the executor, and the publication of what it left. */
    method Dispatch(ghost w: World, plan: Plan) returns (o: Outcome)
      requires net.Since(w) && net.At(id, Planned(plan))
      modifies net
      ensures net.Since(w) && old(net.remote) <= net.remote
      ensures Settled(o)
      ensures o.PublishedWork? ==> |old(net.remote)| < |net.remote|
    {
      var ticket := Begin(w, plan);
      if ticket.Err? {
        return Stopped(ticket.error);
      }
      var result := Execute(w, ticket.value);
      o := AfterRun(w, ticket.value, result);
    }

    /** What dispatch does with the executor's end. */
    method AfterRun(ghost w: World, t: Ticket, result: RunResult) returns (o: Outcome)
      requires net.Since(w) && id in net.clones && Left(t, result)
      modifies net
      ensures net.Since(w) && old(net.remote) <= net.remote
      ensures Settled(o)
      ensures o.PublishedWork? ==> |old(net.remote)| < |net.remote|
    {
      match result
      case Completed => o := Publish(w, t);
      case Crashed => o := Stopped(ExecutorFailed);
      case TurnFailed => o := Outcome.TurnFailed(t.plan);
    }

    /**
     * run_once: when it reports a publication, the remote ends with this clone's commit for the plan, directly
     * on a Supervisor commit, and nothing is left in the working tree; every run of it is a run of the protocol.
     */
    method RunOnce() returns (o: Outcome)
      requires Inv(net.env, net.View()) && net.At(id, Idle)
      modifies net
      ensures net.Since(old(net.View())) && old(net.remote) <= net.remote
      ensures Settled(o)
      ensures o.PublishedWork? ==> |old(net.remote)| < |net.remote|
    {
      ghost var w := net.View();
      ReachesItself(net.env, w);
      var forwarded := FastForward(w);
      if forwarded.Err? {
        return Stopped(forwarded.error);
      }
      var plan := Poll(w);
      if plan.Err? {
        return Stopped(plan.error);
      }
      if plan.value == None {
        return NothingDue;
      }
      o := Dispatch(w, plan.value.value);
    }

    /**
     * The polling loop of main, for any number of polls: it ends at the first error, and the branch has grown by at
     * least one commit for every publication it reported.
     */
    method Watch(polls: nat) returns (publications: nat, o: Outcome)
      requires Inv(net.env, net.View()) && net.At(id, Idle)
      modifies net
      ensures net.Since(old(net.View()))
      ensures net.At(id, if o.Stopped? then Halted else Idle)
      ensures old(net.remote) <= net.remote && publications <= |net.remote| - |old(net.remote)|
    {
      ghost var w := net.View();
      ReachesItself(net.env, w);
      publications, o := 0, NothingDue;
      var i := 0;
      while i < polls && !o.Stopped?
        invariant net.Since(w) && net.At(id, if o.Stopped? then Halted else Idle)
        invariant old(net.remote) <= net.remote && publications <= |net.remote| - |old(net.remote)|
        decreases polls - i
      {
        ghost var w1 := net.View();
        o := RunOnce();
        ReachesOn(net.env, w, w1, net.View());
        if o.PublishedWork? {
          publications := publications + 1;
        }
        i := i + 1;
      }
    }
  }
}
