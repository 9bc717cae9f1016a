/** What every step of the watcher protocol keeps, on the remote branch and in every clone. */
module DispatchInvariant {
  import opened Wrappers
  import opened Markers
  import opened DispatchMachine

  // ---------------------------------------------------------------- the remote branch

  /** Paths on which two trees disagree. */
  function Differing(a: Tree, b: Tree): set<string> {
    (set p | p in a.Keys && (p !in b || b[p] != a[p])) + (set p | p in b.Keys && p !in a)
  }

  function ControlsIn(env: Env, tree: Tree): Controls
    requires env.notePath in tree
  {
    env.read(tree[env.notePath])
  }

  /** The publication the note of a tree asks for. */
  function OwedIn(env: Env, tree: Tree): Option<(Checkpoint, Option<string>)> {
    if env.notePath in tree then Owed(ControlsIn(env, tree)) else None
  }

  function Subject(env: Env, owed: (Checkpoint, Option<string>)): string {
    Message(env.issueId, owed.0, owed.1)
  }

  /** The note at the head of `base` authorises this commit, and nothing recent already published it. */
  predicate Authorised(env: Env, base: Chain, commit: Commit) {
    var before, after := HeadTree(base), commit.tree;
    && env.notePath in before && env.notePath in after
    && ControlsIn(env, after) == ControlsIn(env, before)
    && ControlsIn(env, before).allow.Ok?
    && OwedIn(env, before).Some? && commit.subject == Subject(env, OwedIn(env, before).value)
    && (forall p | p in Differing(before, after) :: PathAllowed(env, p, ControlsIn(env, before).allow.value))
    && !Published(base, commit.subject)
  }

  predicate LinkOk(env: Env, chain: Chain, j: nat)
    requires j < |chain|
  {
    chain[j].origin.FromClone? ==> j > 0 && Authorised(env, chain[..j], chain[j])
  }

  predicate ChainOk(env: Env, chain: Chain) {
    |chain| > 0 && forall j: nat | j < |chain| :: LinkOk(env, chain, j)
  }

  lemma ChainOkExtends(env: Env, chain: Chain, commit: Commit)
    requires ChainOk(env, chain)
    requires commit.origin.FromClone? ==> Authorised(env, chain, commit)
    ensures ChainOk(env, chain + [commit])
  {
    var longer := chain + [commit];
    assert longer[..|chain|] == chain;
    forall j: nat | j < |longer| ensures LinkOk(env, longer, j) {
      if j < |chain| {
        assert LinkOk(env, chain, j);
        assert longer[..j] == chain[..j];
      }
    }
  }

  // ---------------------------------------------------------------- where two branches part

  lemma {:induction false} CommonLengthBounds(a: Chain, b: Chain)
    ensures CommonLength(a, b) <= |a| && CommonLength(a, b) <= |b|
    ensures a[..CommonLength(a, b)] == b[..CommonLength(a, b)]
    ensures CommonLength(a, b) < |a| && CommonLength(a, b) < |b| ==> a[CommonLength(a, b)] != b[CommonLength(a, b)]
  {
    if a != [] && b != [] && a[0] == b[0] {
      CommonLengthBounds(a[1..], b[1..]);
      var k := CommonLength(a[1..], b[1..]);
      assert a[..k + 1] == [a[0]] + a[1..][..k] && b[..k + 1] == [b[0]] + b[1..][..k];
    }
  }

  lemma AgreesBelow(a: Chain, b: Chain, k: nat)
    requires k <= |a| && k <= |b| && a[..k] == b[..k]
    ensures forall i | 0 <= i < k :: a[i] == b[i]
  {
    forall i | 0 <= i < k ensures a[i] == b[i] {
      assert a[i] == a[..k][i] && b[i] == b[..k][i];
    }
  }

  /** The common length is the only length at which two branches agree up to and differ from then on. */
  lemma CommonLengthIs(a: Chain, b: Chain, k: nat)
    requires k <= |a| && k <= |b| && a[..k] == b[..k]
    requires k < |a| && k < |b| ==> a[k] != b[k]
    ensures CommonLength(a, b) == k
  {
    CommonLengthBounds(a, b);
    AgreesBelow(a, b, k);
    AgreesBelow(a, b, CommonLength(a, b));
  }

  /** A commit from elsewhere cannot be the one at which a clone's branch leaves the remote. */
  lemma ForeignCommitKeepsFork(local: Chain, remote: Chain, id: CloneId, commit: Commit)
    requires OwnWork(local, remote, id) && commit.origin != FromClone(id)
    ensures OwnWork(local, remote + [commit], id)
    ensures CommonLength(local, remote) < |local| ==>
          CommonLength(local, remote + [commit]) == CommonLength(local, remote)
  {
    CommonLengthBounds(local, remote);
    var k := CommonLength(local, remote);
    var longer := remote + [commit];
    assert longer[..k] == remote[..k];
    if k < |local| {
      CommonLengthIs(local, longer, k);
    } else {
      assert longer[..k] == local[..k];
      CommonLengthIs(local, longer, k);
    }
  }

  lemma PrefixIsCommon(a: Chain, b: Chain)
    requires a <= b
    ensures CommonLength(a, b) == |a|
    ensures CommonLength(b, a) == |a|
  {
    assert a[..|a|] == b[..|a|];
    CommonLengthIs(a, b, |a|);
    CommonLengthIs(b, a, |a|);
  }

  // ---------------------------------------------------------------- a clone

  /** A branch with a commit of its own that is not on the remote: no other clone's push can undo that. */
  predicate Stuck(local: Chain, remote: Chain) {
    CommonLength(local, remote) < |local|
  }

  predicate PlanOk(env: Env, plan: Plan, chain: Chain) {
    && OwedIn(env, HeadTree(chain)) == Some((plan.checkpoint, plan.publication))
    && !Published(chain, Message(env.issueId, plan.checkpoint, plan.publication))
  }

  /** The log-checked head, the head the run started from and the authorising head are one and the same. */
  predicate TicketOk(env: Env, t: Ticket, remote: Chain) {
    && t.head <= remote
    && |t.head| > 0
    && env.notePath in HeadTree(t.head) && HeadTree(t.head)[env.notePath] == t.note
    && env.read(t.note).allow == Ok(t.patterns)
    && PlanOk(env, t.plan, t.head)
  }

  predicate PhaseOk(env: Env, remote: Chain, id: CloneId, c: Clone) {
    match c.phase
    case Pulled => c.tracking <= c.local && (c.local <= c.tracking || Stuck(c.local, remote))
    case Planned(plan) => (c.local <= c.tracking || Stuck(c.local, remote)) && PlanOk(env, plan, c.tracking)
    case Running(t) => TicketOk(env, t, remote)
    case Ran(t) => TicketOk(env, t, remote)
    case Committed(t) =>
      TicketOk(env, t, remote) && |c.local| == |t.head| + 1 && c.local[..|t.head|] == t.head
      && c.local[|t.head|].origin == FromClone(id) && Authorised(env, t.head, c.local[|t.head|])
      && Stuck(c.local, remote)
    case _ => true
  }

  predicate CloneOk(env: Env, remote: Chain, id: CloneId, c: Clone) {
    c.tracking <= remote && OwnWork(c.local, remote, id) && PhaseOk(env, remote, id, c)
  }

  ghost predicate Inv(env: Env, w: World) {
    ChainOk(env, w.remote) && forall id | id in w.clones :: CloneOk(env, w.remote, id, w.clones[id])
  }

  lemma InitialInv(env: Env, w: World)
    requires Initial(w)
    ensures Inv(env, w)
  {
  }

  /** A clone is not disturbed by a commit that others push. */
  lemma ForeignCommitKeepsClone(env: Env, remote: Chain, id: CloneId, c: Clone, commit: Commit)
    requires CloneOk(env, remote, id, c) && commit.origin != FromClone(id)
    ensures CloneOk(env, remote + [commit], id, c)
  {
    ForeignCommitKeepsFork(c.local, remote, id, commit);
  }

  // ---------------------------------------------------------------- the steps of one clone

  lemma FetchKeeps(env: Env, remote: Chain, id: CloneId, c: Clone)
    requires CloneOk(env, remote, id, c)
    ensures CloneOk(env, remote, id, FetchFirst(env, remote, c))
  {
  }

  lemma PullKeeps(env: Env, remote: Chain, id: CloneId, c: Clone)
    requires CloneOk(env, remote, id, c)
    ensures CloneOk(env, remote, id, Pull(remote, c))
  {
    if c.local <= remote {
      PrefixIsCommon(remote, remote);
    } else if remote <= c.local {
      PrefixIsCommon(remote, c.local);
    }
  }

  lemma FirstPlanned(env: Env, tracking: Chain, memory: Memory, cp: Checkpoint)
    requires FirstPublication(env, tracking, memory, cp).Ok? && FirstPublication(env, tracking, memory, cp).value.Some?
    ensures FirstPublication(env, tracking, memory, cp).value.value == Plan(cp, None, false)
    ensures !Published(tracking, Message(env.issueId, cp, None))
  {
  }

  lemma ReworkPlanned(env: Env, tracking: Chain, memory: Memory, cp: Checkpoint, attempt: nat)
    requires Rework(env, tracking, memory, cp, attempt).Ok? && Rework(env, tracking, memory, cp, attempt).value.Some?
    ensures Rework(env, tracking, memory, cp, attempt).value.value == Plan(cp, Some(ReworkLabel(attempt)), true)
    ensures !Published(tracking, Message(env.issueId, cp, Some(ReworkLabel(attempt))))
  {
  }

  lemma DecidedPlanOk(env: Env, tracking: Chain, memory: Memory)
    requires Decide(env, tracking, memory).Ok? && Decide(env, tracking, memory).value.Some?
    ensures PlanOk(env, Decide(env, tracking, memory).value.value, tracking)
  {
    var note := HeadTree(tracking)[env.notePath];
    var controls := env.read(note);
    var cp := WriteAfter(controls.approval.value).value;
    match controls.rework.value {
      case None => FirstPlanned(env, tracking, memory, cp);
      case Some((target, attempt)) => ReworkPlanned(env, tracking, memory, cp, attempt);
    }
  }

  lemma PollKeeps(env: Env, remote: Chain, id: CloneId, c: Clone)
    requires CloneOk(env, remote, id, c) && c.phase.Pulled?
    ensures CloneOk(env, remote, id, Poll(env, remote, c))
  {
    var d := Decide(env, remote, c.memory);
    if d.Ok? && d.value.Some? {
      DecidedPlanOk(env, remote, c.memory);
    }
  }

  /** The sandwich: a local head equal to the fetched remote head is the head whose log was checked. */
  lemma Sandwich(env: Env, remote: Chain, id: CloneId, c: Clone)
    requires CloneOk(env, remote, id, c) && c.phase.Planned? && c.local == remote
    ensures c.tracking == remote
  {
    PrefixIsCommon(remote, remote);
    assert c.local <= c.tracking <= c.local;
    assert |c.tracking| == |c.local|;
  }

  lemma DispatchKeeps(env: Env, remote: Chain, id: CloneId, c: Clone, plan: Plan)
    requires CloneOk(env, remote, id, c) && c.phase == Planned(plan) && |remote| > 0
    ensures CloneOk(env, remote, id, Dispatch(env, remote, c, plan))
  {
    var started := Start(env, c.(tracking := remote), plan);
    if started.Ok? {
      assert c.local == remote;
      Sandwich(env, remote, id, c);
    }
  }

  lemma FinishKeeps(env: Env, remote: Chain, id: CloneId, c: Clone, local: Chain, work: Tree, result: RunResult)
    requires CloneOk(env, remote, id, c) && c.phase.Running? && OwnWork(local, remote, id)
    ensures CloneOk(env, remote, id, Finish(c.(local := local, work := work), c.phase.ticket, result))
  {
  }

  /** The commit holds the executor's version of every changed path and the base version of every other. */
  lemma CommitDiffers(env: Env, base: Tree, work: Tree)
    ensures Differing(base, CommitTree(base, work, ChangedPaths(env, base, work))) == ChangedPaths(env, base, work)
  {
  }

  /** What passes the checks is authorised by the note at the head it was compared with. */
  lemma CheckedWorkIsAuthorised(env: Env, remote: Chain, c: Clone, t: Ticket)
    requires TicketOk(env, t, remote) && CheckWork(env, c, t).Ok?
    ensures c.tracking == t.head && c.local == t.head
    ensures var changed := CheckWork(env, c, t).value;
            changed == ChangedPaths(env, HeadTree(t.head), c.work)
            && forall commit: Commit
                 | commit.subject == Message(env.issueId, t.plan.checkpoint, t.plan.publication)
                   && commit.tree == CommitTree(HeadTree(t.head), c.work, changed)
                 :: Authorised(env, t.head, commit)
  {
    var base := HeadTree(t.head);
    var changed := ChangedPaths(env, base, c.work);
    CommitDiffers(env, base, c.work);
    var tree := CommitTree(base, c.work, changed);
    assert env.notePath in tree && tree[env.notePath] == c.work[env.notePath];
    assert env.read(t.note) == env.read(c.work[env.notePath]);
  }

  lemma OwnCommitForks(remote: Chain, id: CloneId, commit: Commit)
    requires commit.origin == FromClone(id)
    ensures OwnWork(remote + [commit], remote, id) && Stuck(remote + [commit], remote)
  {
    PrefixIsCommon(remote, remote + [commit]);
  }

  lemma CommitKeeps(env: Env, remote: Chain, id: CloneId, c: Clone, checked: bool)
    requires CloneOk(env, remote, id, c) && c.phase.Ran?
    ensures CloneOk(env, remote, id, CommitWork(env, remote, id, c, c.phase.ticket, checked))
  {
    var t := c.phase.ticket;
    var d := c.(tracking := remote);
    var work := CheckWork(env, d, t);
    if work.Ok? && work.value != {} && checked {
      CheckedWorkIsAuthorised(env, remote, d, t);
      var commit := Commit(FromClone(id), Message(env.issueId, t.plan.checkpoint, t.plan.publication),
                           CommitTree(HeadTree(t.head), d.work, work.value));
      assert Authorised(env, t.head, commit);
      OwnCommitForks(remote, id, commit);
      assert (t.head + [commit])[..|t.head|] == t.head;
    }
  }

  /** Compare and swap: the remote takes a push only if it is still the head the work was checked against. */
  lemma PushTakesAuthorisedCommit(env: Env, remote: Chain, id: CloneId, c: Clone)
    requires CloneOk(env, remote, id, c) && c.phase.Committed? && remote <= c.local
    ensures remote == c.phase.ticket.head && c.local == remote + [c.local[|remote|]]
  {
    if |remote| == |c.local| {
      PrefixIsCommon(c.local, remote);
    }
  }

  lemma PushKeepsPusher(env: Env, remote: Chain, id: CloneId, c: Clone, reply: PushResult)
    requires CloneOk(env, remote, id, c) && c.phase.Committed?
    ensures CloneOk(env, RemoteAfterPush(remote, c.local, reply), id, AfterPush(remote, c, c.phase.ticket, reply))
  {
    if reply != NoConnection && remote <= c.local {
      PrefixIsCommon(c.local, c.local);
    }
  }

  // ---------------------------------------------------------------- the steps of the system

  lemma ForeignCommitKeepsClones(env: Env, remote: Chain, clones: map<CloneId, Clone>, commit: Commit)
    requires forall id | id in clones :: CloneOk(env, remote, id, clones[id])
    ensures forall id | id in clones && commit.origin != FromClone(id) ::
              CloneOk(env, remote + [commit], id, clones[id])
  {
    forall id | id in clones && commit.origin != FromClone(id) ensures CloneOk(env, remote + [commit], id, clones[id]) {
      ForeignCommitKeepsClone(env, remote, id, clones[id], commit);
    }
  }

  lemma SupervisorCommitKeeps(env: Env, w: World, commit: Commit)
    requires Inv(env, w) && commit.origin == Supervisor
    ensures Inv(env, w.(remote := w.remote + [commit]))
  {
    ChainOkExtends(env, w.remote, commit);
    ForeignCommitKeepsClones(env, w.remote, w.clones, commit);
  }

  lemma PushedCommitKeeps(env: Env, w: World, commit: Commit, id: CloneId, c: Clone)
    requires Inv(env, w) && id in w.clones
    requires commit.origin == FromClone(id) && Authorised(env, w.remote, commit)
    requires CloneOk(env, w.remote + [commit], id, c)
    ensures Inv(env, World(w.remote + [commit], w.clones[id := c]))
  {
    ChainOkExtends(env, w.remote, commit);
    ForeignCommitKeepsClones(env, w.remote, w.clones, commit);
  }

  lemma ProceedKeeps(env: Env, remote: Chain, id: CloneId, c: Clone)
    requires CloneOk(env, remote, id, c) && CanProceed(c.phase) && |remote| > 0
    ensures CloneOk(env, remote, id, ProceedStep(env, remote, c))
  {
    match c.phase {
      case Idle => FetchKeeps(env, remote, id, c);
      case Fetched => PullKeeps(env, remote, id, c);
      case Pulled => PollKeeps(env, remote, id, c);
      case Planned(plan) => DispatchKeeps(env, remote, id, c, plan);
    }
  }

  lemma PushKeepsInv(env: Env, w: World, id: CloneId, reply: PushResult)
    requires Inv(env, w) && Allowed(w, Push(id, reply))
    ensures Inv(env, Apply(env, w, Push(id, reply)))
  {
    var c := w.clones[id];
    var w' := Apply(env, w, Push(id, reply));
    PushKeepsPusher(env, w.remote, id, c, reply);
    if w'.remote != w.remote {
      PushTakesAuthorisedCommit(env, w.remote, id, c);
      PushedCommitKeeps(env, w, c.local[|w.remote|], id, w'.clones[id]);
    }
  }

  lemma ApplyKeeps(env: Env, w: World, a: Action)
    requires Inv(env, w) && Allowed(w, a)
    ensures Inv(env, Apply(env, w, a))
  {
    match a {
      case SupervisorPush(subject, tree) =>
        SupervisorCommitKeeps(env, w, Commit(Supervisor, subject, tree));
      case Proceed(c) => ProceedKeeps(env, w.remote, c, w.clones[c]);
      case Execute(c, local, work, result) => FinishKeeps(env, w.remote, c, w.clones[c], local, work, result);
      case Publish(c, checked) => CommitKeeps(env, w.remote, c, w.clones[c], checked);
      case Push(c, reply) => PushKeepsInv(env, w, c, reply);
      case Break(_) =>
      case Operator(_, _, _, _) =>
    }
  }

  lemma {:induction false} RunInv(env: Env, ws: seq<World>, n: nat)
    requires Run(env, ws) && n < |ws|
    ensures Inv(env, ws[n])
  {
    if n == 0 {
      InitialInv(env, ws[0]);
    } else {
      RunInv(env, ws, n - 1);
      assert StepAt(env, ws, n - 1);
      var a :| Allowed(ws[n - 1], a) && ws[n] == Apply(env, ws[n - 1], a);
      ApplyKeeps(env, ws[n - 1], a);
    }
  }
}
