/** Runs that do the same work twice: a rework that changes nothing, one that failed elsewhere, a forgotten publication. */
module DispatchScenarios {
  import opened Wrappers
  import opened JsonValues
  import opened Text
  import opened Markers
  import opened DispatchMachine
  import opened DispatchInvariant
  import opened DispatchTheorems
  import opened DispatchRuns
  import Runs

  // ---------------------------------------------------------------- runs from reachable worlds

  /** A run can go on wherever its last world leads. */
  lemma RunOn(env: Env, ws: seq<World>, w: World) returns (more: seq<World>)
    requires Run(env, ws) && Reaches(env, ws[|ws| - 1], w)
    ensures Run(env, more) && ws <= more && more[|more| - 1] == w
  {
    var last := ws[|ws| - 1];
    var steps :| Runs.Follows(Steps(env), last, steps, w);
    Runs.FollowsLinks(Steps(env), last, steps, w);
    var chain := [last] + steps;
    more := ws + steps;
    forall i: nat | i + 1 < |more| ensures StepAt(env, more, i) {
      if i + 1 < |ws| {
        assert StepAt(env, ws, i);
      } else {
        var k: nat := i + 1 - |ws|;
        assert Runs.LinkedAt(Steps(env), chain, k);
        assert more[i] == chain[k] && more[i + 1] == chain[k + 1];
      }
    }
    assert more[|more| - 1] == chain[|chain| - 1];
  }

  lemma StartRun(env: Env, w: World)
    requires Initial(w)
    ensures Run(env, [w])
  {
  }

  /** Only clone `id` has changed, to `c`. */
  function With(w: World, id: CloneId, c: Clone): World {
    w.(clones := w.clones[id := c])
  }

  lemma WithTwice(w: World, id: CloneId, c: Clone, c': Clone)
    ensures With(With(w, id, c), id, c') == With(w, id, c')
  {
  }

  // ---------------------------------------------------------------- a poll that starts

  /** An idle, clean clone with nothing of its own, for which the branch head asks for something. */
  predicate Ready(env: Env, remote: Chain, c: Clone) {
    && c.phase.Idle? && Clean(env, c) && c.local <= remote && Clean(env, Pull(remote, FetchFirst(env, remote, c)))
    && OwedIn(env, HeadTree(remote)).Some? && ControlsIn(env, HeadTree(remote)).allow.Ok?
    && !Published(remote, Subject(env, OwedIn(env, HeadTree(remote)).value))
    && !HeldBack(c.memory, OwedIn(env, HeadTree(remote)).value)
  }

  function PlanOf(owed: (Checkpoint, Option<string>)): Plan {
    Plan(owed.0, owed.1, owed.1.Some?)
  }

  /** The clone that has started what the head asks for. */
  function Started(env: Env, remote: Chain, c: Clone): Clone
    requires OwedIn(env, HeadTree(remote)).Some? && ControlsIn(env, HeadTree(remote)).allow.Ok?
  {
    Pull(remote, FetchFirst(env, remote, c)).
      (phase := Running(HeadTicket(env, remote, PlanOf(OwedIn(env, HeadTree(remote)).value))))
  }

  lemma Proceeds(env: Env, w0: World, w: World, id: CloneId, c: Clone)
    requires Reaches(env, w0, w) && id in w.clones && CanProceed(w.clones[id].phase)
    requires ProceedStep(env, w.remote, w.clones[id]) == c
    ensures Reaches(env, w0, With(w, id, c))
  {
    ReachesStep(env, w0, w, Proceed(id));
  }

  lemma Polls(env: Env, w0: World, w: World, id: CloneId)
    requires Reaches(env, w0, w) && id in w.clones && Ready(env, w.remote, w.clones[id])
    ensures Reaches(env, w0, With(w, id, Started(env, w.remote, w.clones[id])))
  {
    var c := w.clones[id];
    QuietPollStarts(env, w.remote, c);
    var fetched := FetchFirst(env, w.remote, c);
    var pulled := Pull(w.remote, fetched);
    var polled := Poll(env, w.remote, pulled);
    Proceeds(env, w0, w, id, fetched);
    Proceeds(env, w0, With(w, id, fetched), id, pulled);
    WithTwice(w, id, fetched, pulled);
    Proceeds(env, w0, With(w, id, pulled), id, polled);
    WithTwice(w, id, pulled, polled);
    Proceeds(env, w0, With(w, id, polled), id, Started(env, w.remote, c));
    WithTwice(w, id, polled, Started(env, w.remote, c));
  }

  lemma StartedStands(env: Env, remote: Chain, c: Clone)
    requires |remote| > 0 && Ready(env, remote, c)
    ensures
      var d := Started(env, remote, c);
      && d.local == d.tracking == remote && Clean(env, d) && d.memory == c.memory
      && TicketOk(env, d.phase.ticket, remote) && d.phase.ticket.head == remote
  {
    QuietPollStarts(env, remote, c);
  }

  // ---------------------------------------------------------------- runs that end

  lemma Executes(env: Env, w0: World, w: World, id: CloneId, t: Ticket, work: Tree, result: RunResult)
    requires Reaches(env, w0, w) && id in w.clones && w.clones[id].phase == Running(t) && w.clones[id].local == w.remote
    ensures Reaches(env, w0, With(w, id, Finish(w.clones[id].(work := work), t, result)))
  {
    PrefixIsCommon(w.remote, w.remote);
    ReachesStep(env, w0, w, Execute(id, w.remote, work, result));
    assert w.clones[id].(local := w.remote, work := work) == w.clones[id].(work := work);
  }

  /** The record of a run that changed nothing, or that failed. */
  function Recorded(c: Clone, t: Ticket, status: RunStatus): Clone {
    Remember(c, t.plan, status, Idle)
  }

  lemma CleanKeeps(env: Env, base: Tree, work: Tree)
    requires ChangedPaths(env, base, work) == {}
    ensures forall p | p in base :: p in work && work[p] == base[p]
  {
    assert forall p | p in base && (p !in work || work[p] != base[p]) :: p in ChangedPaths(env, base, work);
  }

  lemma UnchangedWorkPasses(env: Env, c: Clone, t: Ticket)
    requires TicketOk(env, t, t.head) && c.tracking == t.head == c.local && Clean(env, c)
    ensures CheckWork(env, c, t) == Ok({})
  {
    CleanKeeps(env, HeadTree(c.local), c.work);
    WorkIsChecked(env, c, t);
  }

  lemma EndsUnchanged(env: Env, w0: World, w: World, id: CloneId, t: Ticket)
    requires Reaches(env, w0, w) && id in w.clones && w.clones[id].phase == Running(t) && Clean(env, w.clones[id])
    requires w.clones[id].local == w.clones[id].tracking == w.remote == t.head && TicketOk(env, t, t.head)
    ensures Reaches(env, w0, With(w, id, Recorded(w.clones[id], t, Succeeded)))
  {
    var c := w.clones[id];
    var ran := Finish(c.(work := c.work), t, Completed);
    Executes(env, w0, w, id, t, c.work, Completed);
    var w1 := With(w, id, ran);
    UnchangedWorkPasses(env, ran.(tracking := w.remote), t);
    ReachesStep(env, w0, w1, Publish(id, true));
    WithTwice(w, id, ran, Recorded(c, t, Succeeded));
  }

  // ---------------------------------------------------------------- a rework that changes nothing

  lemma StaysInPlace(env: Env, remote: Chain, c: Clone)
    requires Clean(env, c) && c.local == remote == c.tracking
    ensures Pull(remote, FetchFirst(env, remote, c)) == c.(phase := Pulled)
  {
    var base := HeadTree(remote);
    CleanKeeps(env, base, c.work);
    assert Checkout(c.work, base, base) == c.work;
  }

  /** Recorded as succeeded without a publication, an attempt is as ready as before. */
  lemma ReadyAgain(env: Env, remote: Chain, c: Clone)
    requires |remote| > 0 && Ready(env, remote, c) && OwedIn(env, HeadTree(remote)).value.1.Some?
    ensures
      var d := Started(env, remote, c);
      var again := Recorded(d, d.phase.ticket, Succeeded);
      Ready(env, remote, again) && Started(env, remote, again) == d.(memory := again.memory)
  {
    StartedStands(env, remote, c);
    var d := Started(env, remote, c);
    StaysInPlace(env, remote, Recorded(d, d.phase.ticket, Succeeded));
  }

  /** Clone `id` runs the same ticket at both places of the run, a forced one, and has been idle in between. */
  predicate RunsTwice(ws: seq<World>, i: nat, m: nat, j: nat, id: CloneId) {
    && i < m < j < |ws|
    && id in ws[i].clones && id in ws[m].clones && id in ws[j].clones
    && ws[i].clones[id].phase.Running? && ws[i].clones[id].phase.ticket.plan.force
    && ws[m].clones[id].phase.Idle? && ws[m].clones[id].memory.Memory? && ws[m].clones[id].memory.status == Succeeded
    && ws[j].clones[id].phase == ws[i].clones[id].phase
  }

  /** From any start with a clone that is ready for a rework: its attempt runs twice, and the branch never grows. */
  lemma ReworkRunsTwice(env: Env, w: World, id: CloneId) returns (ws: seq<World>, i: nat, m: nat, j: nat)
    requires Initial(w) && id in w.clones && Ready(env, w.remote, w.clones[id])
    requires OwedIn(env, HeadTree(w.remote)).value.1.Some?
    ensures Run(env, ws) && ws[0] == w && RunsTwice(ws, i, m, j, id)
    ensures forall k | 0 <= k < |ws| :: ws[k].remote == w.remote
  {
    var c := w.clones[id];
    var d := Started(env, w.remote, c);
    var t := d.phase.ticket;
    var again := Recorded(d, t, Succeeded);
    StartedStands(env, w.remote, c);
    ReadyAgain(env, w.remote, c);
    ReachesItself(env, w);
    Polls(env, w, w, id);
    var w1, w2 := With(w, id, d), With(w, id, again);
    ReachesItself(env, w1);
    EndsUnchanged(env, w1, w1, id, t);
    WithTwice(w, id, d, again);
    ReachesItself(env, w2);
    Polls(env, w2, w2, id);
    WithTwice(w, id, again, d.(memory := again.memory));
    var w3 := With(w, id, d.(memory := again.memory));
    ws, i, m, j := RunThrough(env, w, w1, w2, w3);
    BranchStands(env, ws);
  }

  /** A run through four worlds that lead to each other and are pairwise apart. */
  lemma RunThrough(env: Env, w: World, w1: World, w2: World, w3: World) returns (ws: seq<World>, i: nat, m: nat, j: nat)
    requires Initial(w) && Reaches(env, w, w1) && Reaches(env, w1, w2) && Reaches(env, w2, w3) && w1 != w2 && w2 != w3
    ensures Run(env, ws) && ws[0] == w && i < m < j == |ws| - 1 && ws[i] == w1 && ws[m] == w2 && ws[j] == w3
  {
    StartRun(env, w);
    var first := RunOn(env, [w], w1);
    var second := RunOn(env, first, w2);
    ws := RunOn(env, second, w3);
    i, m, j := |first| - 1, |second| - 1, |ws| - 1;
    assert ws[i] == second[i] == first[i];
    assert ws[m] == second[m];
  }

  /** A run that ends with the branch it started from never left it. */
  lemma BranchStands(env: Env, ws: seq<World>)
    requires Run(env, ws) && ws[|ws| - 1].remote == ws[0].remote
    ensures forall k | 0 <= k < |ws| :: ws[k].remote == ws[0].remote
  {
    forall k | 0 <= k < |ws| ensures ws[k].remote == ws[0].remote {
      BranchOnlyGrows(env, ws, 0, k);
      BranchOnlyGrows(env, ws, k, |ws| - 1);
    }
  }

  // ---------------------------------------------------------------- an attempt that failed in another clone

  /** In `w` clone `a` runs a ticket; in `w'` it has failed it and would stop at a poll, and clone `b` runs it. */
  predicate FailedElsewhere(env: Env, w: World, w': World, a: CloneId, b: CloneId) {
    && a in w.clones && a in w'.clones && b in w'.clones
    && w.clones[a].phase.Running? && w'.clones[b].phase == w.clones[a].phase
    && w'.clones[a].memory.Memory? && w'.clones[a].memory.status == Failed
    && Decide(env, w'.remote, w'.clones[a].memory).Err?
  }

  lemma OtherStarts(env: Env, w: World, a: CloneId, b: CloneId) returns (w1: World, w2: World, w3: World)
    requires |w.remote| > 0 && a in w.clones && b in w.clones && a != b
    requires Ready(env, w.remote, w.clones[a]) && Ready(env, w.remote, w.clones[b])
    requires OwedIn(env, HeadTree(w.remote)).value.1.Some?
    ensures Reaches(env, w, w1) && Reaches(env, w1, w2) && Reaches(env, w2, w3) && w3.remote == w.remote
    ensures FailedElsewhere(env, w1, w3, a, b) && w1 != w2 && w2 != w3
  {
    var d, e := Started(env, w.remote, w.clones[a]), Started(env, w.remote, w.clones[b]);
    var failed := Recorded(d, d.phase.ticket, Failed);
    StartsAndFails(env, w, a);
    w1, w2 := With(w, a, d), With(w, a, failed);
    ReachesItself(env, w2);
    Polls(env, w2, w2, b);
    w3 := With(w2, b, e);
    assert w1.clones[a] == d && w2.clones[a] == failed && w3.clones[a] == failed;
    assert w2.clones[b] == w.clones[b] && w3.clones[b] == e;
  }

  /** A failed attempt is held back only in the clone that ran it: from any start with two ready clones the other runs it. */
  lemma FailedAttemptRunsElsewhere(env: Env, w: World, a: CloneId, b: CloneId) returns (ws: seq<World>, i: nat, j: nat)
    requires Initial(w) && a in w.clones && b in w.clones && a != b
    requires Ready(env, w.remote, w.clones[a]) && Ready(env, w.remote, w.clones[b])
    requires OwedIn(env, HeadTree(w.remote)).value.1.Some?
    ensures Run(env, ws) && ws[0] == w && i < j < |ws| && FailedElsewhere(env, ws[i], ws[j], a, b)
    ensures forall k | 0 <= k < |ws| :: ws[k].remote == w.remote
  {
    var w1, w2, w3 := OtherStarts(env, w, a, b);
    var m: nat;
    ws, i, m, j := RunThrough(env, w, w1, w2, w3);
    BranchStands(env, ws);
  }

  /** A ready clone starts, and its turn fails: the record then holds the attempt back. */
  lemma StartsAndFails(env: Env, w: World, id: CloneId)
    requires |w.remote| > 0 && id in w.clones && Ready(env, w.remote, w.clones[id])
    requires OwedIn(env, HeadTree(w.remote)).value.1.Some?
    ensures
      var d := Started(env, w.remote, w.clones[id]);
      var failed := Recorded(d, d.phase.ticket, Failed);
      && Reaches(env, w, With(w, id, d)) && Reaches(env, With(w, id, d), With(w, id, failed))
      && Decide(env, w.remote, failed.memory).Err?
  {
    var d := Started(env, w.remote, w.clones[id]);
    var failed := Recorded(d, d.phase.ticket, Failed);
    StartedStands(env, w.remote, w.clones[id]);
    ReachesItself(env, w);
    Polls(env, w, w, id);
    var w1 := With(w, id, d);
    ReachesItself(env, w1);
    Executes(env, w1, w1, id, d.phase.ticket, d.work, TurnFailed);
    WithTwice(w, id, d, failed);
    PollOtherwise(env, w.remote, failed.memory);
  }

  // ---------------------------------------------------------------- a publication that lands twice

  /** An allowed change of the tree that leaves the note's markers alone. */
  predicate Publishable(env: Env, t: Ticket, work: Tree) {
    && env.notePath in work && env.read(work[env.notePath]) == env.read(t.note)
    && ChangedPaths(env, HeadTree(t.head), work) != {}
    && forall p | p in ChangedPaths(env, HeadTree(t.head), work) :: PathAllowed(env, p, t.patterns)
  }

  function PublicationOf(env: Env, id: CloneId, t: Ticket, work: Tree): Commit {
    Commit(FromClone(id), Message(env.issueId, t.plan.checkpoint, t.plan.publication),
           CommitTree(HeadTree(t.head), work, ChangedPaths(env, HeadTree(t.head), work)))
  }

  /** What remains of a world in which clone `id` has published on top of the remote. */
  function Landed(env: Env, w: World, id: CloneId, t: Ticket, work: Tree): World
    requires id in w.clones
  {
    var remote := w.remote + [PublicationOf(env, id, t, work)];
    World(remote, w.clones[id := Recorded(w.clones[id].(work := work, local := remote, tracking := remote), t, Succeeded)])
  }

  lemma CommitsAndPushes(env: Env, remote: Chain, id: CloneId, c: Clone, t: Ticket, work: Tree)
    requires c.phase == Running(t) && TicketOk(env, t, t.head)
    requires c.local == c.tracking == remote == t.head && Publishable(env, t, work)
    ensures
      var ran := Finish(c.(work := work), t, Completed);
      var committed := CommitWork(env, remote, id, ran, t, true);
      var longer := remote + [PublicationOf(env, id, t, work)];
      && committed.phase == Committed(t) && RemoteAfterPush(remote, committed.local, Acknowledged) == longer
      && AfterPush(remote, committed, t, Acknowledged)
         == Recorded(c.(work := work, local := longer, tracking := longer), t, Succeeded)
  {
    QuietRunPublishes(env, remote, id, c, t, work);
    WorkIsChecked(env, c.(work := work, phase := Ran(t)), t);
  }

  lemma Lands(env: Env, w0: World, w: World, id: CloneId, t: Ticket, work: Tree)
    requires Reaches(env, w0, w) && id in w.clones && w.clones[id].phase == Running(t) && TicketOk(env, t, t.head)
    requires w.clones[id].local == w.clones[id].tracking == w.remote == t.head && Publishable(env, t, work)
    ensures Reaches(env, w0, Landed(env, w, id, t, work))
  {
    var c := w.clones[id];
    var ran := Finish(c.(work := work), t, Completed);
    var committed := CommitWork(env, w.remote, id, ran, t, true);
    CommitsAndPushes(env, w.remote, id, c, t, work);
    Executes(env, w0, w, id, t, work, Completed);
    var w1 := With(w, id, ran);
    ReachesStep(env, w0, w1, Publish(id, true));
    var w2 := With(w1, id, committed);
    WithTwice(w, id, ran, committed);
    ReachesStep(env, w0, w2, Push(id, Acknowledged));
    assert Apply(env, w2, Push(id, Acknowledged)) == Landed(env, w, id, t, work);
  }

  /** A Supervisor commit that says nothing new. */
  function Echo(tree: Tree): Commit {
    Commit(Supervisor, "", tree)
  }

  lemma {:induction false} Echoes(env: Env, w0: World, w: World, tree: Tree, n: nat)
    requires Reaches(env, w0, w)
    ensures Reaches(env, w0, w.(remote := w.remote + seq(n, _ => Echo(tree))))
    decreases n
  {
    var echoes := seq(n, _ => Echo(tree));
    if n == 0 {
      assert w.remote + echoes == w.remote;
    } else {
      var before := w.(remote := w.remote + seq(n - 1, _ => Echo(tree)));
      Echoes(env, w0, w, tree, n - 1);
      ReachesStep(env, w0, before, SupervisorPush("", tree));
      assert before.remote + [Echo(tree)] == w.remote + echoes;
    }
  }

  lemma MessageSaysSomething(env: Env, owed: (Checkpoint, Option<string>))
    ensures Subject(env, owed) != ""
  {
  }

  /** A clone that stands where the branch stood is ready again once enough commits hide the publication. */
  lemma ReadyAfterEchoes(env: Env, remote: Chain, publication: Commit, c: Clone)
    requires |remote| > 0 && Ready(env, remote, c) && c.local == remote
    ensures
      var longer := remote + [publication] + seq(LOG_LIMIT, _ => Echo(HeadTree(remote)));
      && HeadTree(longer) == HeadTree(remote) && Ready(env, longer, c)
      && PlanOf(OwedIn(env, HeadTree(longer)).value) == PlanOf(OwedIn(env, HeadTree(remote)).value)
  {
    var tree := HeadTree(remote);
    var longer := remote + [publication] + seq(LOG_LIMIT, _ => Echo(tree));
    CleanKeeps(env, tree, c.work);
    assert Checkout(c.work, tree, tree) == c.work;
    MessageSaysSomething(env, OwedIn(env, tree).value);
    assert forall i | |longer| - LOG_LIMIT <= i < |longer| :: longer[i] == Echo(tree);
  }

  /** Both commits are publications, by these clones and with one subject, as near as the log limit lets them be. */
  predicate LandTwice(chain: Chain, i: nat, j: nat, a: CloneId, b: CloneId) {
    && i < j < |chain| && j == i + 201
    && chain[i].origin == FromClone(a) && chain[j].origin == FromClone(b) && chain[i].subject == chain[j].subject
  }

  /**
   * From any start with two ready clones and work they may publish: both publish it, the second once the Supervisor's
   * commits have filled the log. So the distance that publications with one subject keep cannot be stated larger.
   */
  lemma PublicationLandsTwice(env: Env, w: World, a: CloneId, b: CloneId, work: Tree)
    returns (ws: seq<World>, i: nat, j: nat)
    requires Initial(w) && a in w.clones && b in w.clones && a != b && w.clones[b].local == w.remote
    requires Ready(env, w.remote, w.clones[a]) && Ready(env, w.remote, w.clones[b])
    requires Publishable(env, HeadTicket(env, w.remote, PlanOf(OwedIn(env, HeadTree(w.remote)).value)), work)
    ensures Run(env, ws) && ws[0] == w && LandTwice(Branch(ws), i, j, a, b)
  {
    ReachesItself(env, w);
    var w1 := PublishesOnce(env, w, w, a, work);
    var w2 := PublishesLater(env, w, w.remote, w1, b, work);
    StartRun(env, w);
    ws := RunOn(env, [w], w2);
    i, j := |w.remote|, |w.remote| + LOG_LIMIT + 1;
  }

  /** With the log filled on top of a publication, clone `id` publishes what was asked for before it. */
  lemma PublishesLater(env: Env, w0: World, remote: Chain, w: World, id: CloneId, work: Tree) returns (w': World)
    requires Reaches(env, w0, w) && |remote| > 0 && remote < w.remote && |w.remote| == |remote| + 1 && id in w.clones
    requires Ready(env, remote, w.clones[id]) && w.clones[id].local == remote
    requires Publishable(env, HeadTicket(env, remote, PlanOf(OwedIn(env, HeadTree(remote)).value)), work)
    ensures Reaches(env, w0, w') && |w'.remote| == |w.remote| + LOG_LIMIT + 1 && w.remote <= w'.remote
    ensures w'.remote[|w.remote| + LOG_LIMIT].origin == FromClone(id)
    ensures w'.remote[|w.remote| + LOG_LIMIT].subject == Subject(env, OwedIn(env, HeadTree(remote)).value)
  {
    var tree := HeadTree(remote);
    var echoed := w.(remote := w.remote + seq(LOG_LIMIT, _ => Echo(tree)));
    Echoes(env, w0, w, tree, LOG_LIMIT);
    assert w.remote == remote + [w.remote[|remote|]];
    ReadyAfterEchoes(env, remote, w.remote[|remote|], w.clones[id]);
    w' := PublishesOnce(env, w0, echoed, id, work);
  }

  /** One undisturbed poll of a ready clone, with this work. */
  lemma PublishesOnce(env: Env, w0: World, w: World, id: CloneId, work: Tree) returns (w': World)
    requires Reaches(env, w0, w) && |w.remote| > 0 && id in w.clones && Ready(env, w.remote, w.clones[id])
    requires Publishable(env, HeadTicket(env, w.remote, PlanOf(OwedIn(env, HeadTree(w.remote)).value)), work)
    ensures Reaches(env, w0, w') && |w'.remote| == |w.remote| + 1 && w.remote <= w'.remote
    ensures w'.remote[|w.remote|].origin == FromClone(id)
    ensures w'.remote[|w.remote|].subject == Subject(env, OwedIn(env, HeadTree(w.remote)).value)
    ensures forall c | c in w.clones && c != id :: c in w'.clones && w'.clones[c] == w.clones[c]
  {
    var started := Started(env, w.remote, w.clones[id]);
    StartedStands(env, w.remote, w.clones[id]);
    Polls(env, w0, w, id);
    var t := started.phase.ticket;
    Lands(env, w0, With(w, id, started), id, t, work);
    w' := Landed(env, With(w, id, started), id, t, work);
  }

  // ---------------------------------------------------------------- explicit starts

  /** One Supervisor commit that holds the note, and two clones of it. */
  function OneRequest(env: Env, note: Note): World {
    var tree := map[env.notePath := note];
    var chain := [Commit(Supervisor, "", tree)];
    World(chain, map[0 := Clone(chain, chain, tree, NoMemory, Idle), 1 := Clone(chain, chain, tree, NoMemory, Idle)])
  }

  lemma RequestIsReady(env: Env, note: Note)
    requires Owed(env.read(note)).Some? && env.read(note).allow.Ok?
    ensures
      var w := OneRequest(env, note);
      && Initial(w) && OwedIn(env, HeadTree(w.remote)) == Owed(env.read(note))
      && 0 in w.clones && 1 in w.clones && Ready(env, w.remote, w.clones[0]) && w.clones[1] == w.clones[0]
      && w.clones[0].local == w.remote
      && HeadTree(w.remote) == map[env.notePath := note]
  {
    var w := OneRequest(env, note);
    var c := w.clones[0];
    PrefixIsCommon(w.remote, w.remote);
    StaysInPlace(env, w.remote, c);
    MessageSaysSomething(env, Owed(env.read(note)).value);
  }

  /** A rework that the repository's own parsers read in a written note runs twice. */
  lemma WrittenReworkRunsTwice(env: Env, decode: Decoder, allow: string, rework: string, patterns: seq<string>,
                               attempt: nat)
    returns (ws: seq<World>, i: nat, m: nat, j: nat)
    requires env == Repository(env.issueId, env.notePath, decode, env.matches, env.ignored)
    requires Tight(allow) && Tight(rework) && AllowOf(decode(allow)) == Ok(patterns)
    requires ReworkOf(decode(rework)) == Ok(Some((CP2, attempt)))
    ensures Run(env, ws) && ws[0] == OneRequest(env, WrittenNote(CP1, allow, Some(rework)))
    ensures RunsTwice(ws, i, m, j, 0) && forall k | 0 <= k < |ws| :: ws[k].remote == ws[0].remote
  {
    var note := WrittenNote(CP1, allow, Some(rework));
    WrittenNoteReadsBack(decode, CP1, allow, Some(rework));
    RequestIsReady(env, note);
    ws, i, m, j := ReworkRunsTwice(env, OneRequest(env, note), 0);
  }

  /** Failed in one clone, it runs in the other. */
  lemma WrittenReworkFailsElsewhere(env: Env, decode: Decoder, allow: string, rework: string, patterns: seq<string>,
                                    attempt: nat)
    returns (ws: seq<World>, i: nat, j: nat)
    requires env == Repository(env.issueId, env.notePath, decode, env.matches, env.ignored)
    requires Tight(allow) && Tight(rework) && AllowOf(decode(allow)) == Ok(patterns)
    requires ReworkOf(decode(rework)) == Ok(Some((CP2, attempt)))
    ensures Run(env, ws) && ws[0] == OneRequest(env, WrittenNote(CP1, allow, Some(rework)))
    ensures i < j < |ws| && FailedElsewhere(env, ws[i], ws[j], 0, 1)
    ensures forall k | 0 <= k < |ws| :: ws[k].remote == ws[0].remote
  {
    var note := WrittenNote(CP1, allow, Some(rework));
    WrittenNoteReadsBack(decode, CP1, allow, Some(rework));
    RequestIsReady(env, note);
    ws, i, j := FailedAttemptRunsElsewhere(env, OneRequest(env, note), 0, 1);
  }

  /** The note, and one new file. */
  function OneFile(env: Env, note: Note, path: string): Tree {
    map[env.notePath := note, path := []]
  }

  lemma OneFileIsPublishable(env: Env, note: Note, patterns: seq<string>, path: string)
    requires Owed(env.read(note)).Some? && env.read(note).allow == Ok(patterns) && path != env.notePath
    requires PathAllowed(env, path, patterns) && !env.ignored(OneFile(env, note, path), path)
    ensures
      var remote := OneRequest(env, note).remote;
      && OwedIn(env, HeadTree(remote)).Some? && ControlsIn(env, HeadTree(remote)).allow.Ok?
      && Publishable(env, HeadTicket(env, remote, PlanOf(OwedIn(env, HeadTree(remote)).value)), OneFile(env, note, path))
  {
    assert ChangedPaths(env, map[env.notePath := note], OneFile(env, note, path)) == {path};
  }

  lemma RequestLandsTwice(env: Env, note: Note, patterns: seq<string>, path: string)
    returns (ws: seq<World>, i: nat, j: nat)
    requires Owed(env.read(note)).Some? && env.read(note).allow == Ok(patterns) && path != env.notePath
    requires PathAllowed(env, path, patterns) && !env.ignored(OneFile(env, note, path), path)
    ensures Run(env, ws) && ws[0] == OneRequest(env, note) && LandTwice(Branch(ws), i, j, 0, 1)
  {
    RequestIsReady(env, note);
    OneFileIsPublishable(env, note, patterns, path);
    ws, i, j := PublicationLandsTwice(env, OneRequest(env, note), 0, 1, OneFile(env, note, path));
  }

  /** A first publication of one new file, asked for by a written note, lands twice. */
  lemma WrittenRequestLandsTwice(env: Env, decode: Decoder, allow: string, patterns: seq<string>, path: string)
    returns (ws: seq<World>, i: nat, j: nat)
    requires env == Repository(env.issueId, env.notePath, decode, env.matches, env.ignored)
    requires Tight(allow) && AllowOf(decode(allow)) == Ok(patterns) && path != env.notePath
    requires PathAllowed(env, path, patterns)
    requires !env.ignored(OneFile(env, WrittenNote(CP1, allow, None), path), path)
    ensures Run(env, ws) && ws[0] == OneRequest(env, WrittenNote(CP1, allow, None))
    ensures LandTwice(Branch(ws), i, j, 0, 1)
  {
    var note := WrittenNote(CP1, allow, None);
    WrittenNoteReadsBack(decode, CP1, allow, None);
    ws, i, j := RequestLandsTwice(env, note, patterns, path);
  }
}
