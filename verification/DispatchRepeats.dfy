/** When the same work is dispatched again, exactly, and what a Supervisor's written note comes to. */
module DispatchRepeats {
  import opened Wrappers
  import opened JsonValues
  import opened Markers
  import opened MarkerReading
  import opened DispatchMachine
  import opened DispatchInvariant
  import opened DispatchTheorems

  // ---------------------------------------------------------------- the log limit

  /** Commit `i` is the newest one with its subject. */
  predicate LastWithSubject(chain: Chain, i: nat)
    requires i < |chain|
  {
    forall k | i < k < |chain| :: chain[k].subject != chain[i].subject
  }

  lemma NewestDecides(chain: Chain, i: nat)
    requires i < |chain| && LastWithSubject(chain, i)
    ensures Published(chain, chain[i].subject) <==> |chain| - i <= LOG_LIMIT
  {
  }

  /**
   * The log limit is exact: a watcher whose record does not hold it back dispatches what is published at commit `i`
   * and still asked for exactly when at least as many commits as the limit are newer than that one.
   */
  lemma ForgottenAtTheLimit(env: Env, chain: Chain, memory: Memory, i: nat)
    requires i < |chain| && LastWithSubject(chain, i)
    requires OwedIn(env, HeadTree(chain)).Some? && chain[i].subject == Subject(env, OwedIn(env, HeadTree(chain)).value)
    ensures
      var owed := OwedIn(env, HeadTree(chain)).value;
      Decide(env, chain, memory) == Ok(Some(Plan(owed.0, owed.1, owed.1.Some?)))
      <==> !HeldBack(memory, owed) && |chain| - 1 - i >= 200
    ensures |chain| - 1 - i < 200 ==> Decide(env, chain, memory) == Ok(None)
  {
    NewestDecides(chain, i);
    PollDecidesExactly(env, chain, memory);
    PollOtherwise(env, chain, memory);
  }

  // ---------------------------------------------------------------- a finished rework

  /** Publishing what the executor left, undisturbed: the commit, if there is one, lands. */
  function Concluded(env: Env, w: World, id: CloneId): World
    requires id in w.clones && w.clones[id].phase.Ran?
  {
    var committed := Apply(env, w, Publish(id, true));
    if committed.clones[id].phase.Committed? then Apply(env, committed, Push(id, Acknowledged)) else committed
  }

  /** What a run whose work passes the checks leaves, by whether it changed anything. */
  lemma ConcludedLeaves(env: Env, w: World, id: CloneId)
    requires id in w.clones && w.clones[id].phase.Ran?
    requires MayPublish(env, w.clones[id].(tracking := w.remote), w.clones[id].phase.ticket)
    ensures
      var c, t := w.clones[id], w.clones[id].phase.ticket;
      var w' := Concluded(env, w, id);
      var changed := ChangedPaths(env, HeadTree(t.head), c.work);
      var commit := Commit(FromClone(id), Message(env.issueId, t.plan.checkpoint, t.plan.publication),
                           CommitTree(HeadTree(t.head), c.work, changed));
      && id in w'.clones && w'.clones[id].phase.Idle?
      && w'.clones[id].memory == Memory(t.plan.checkpoint, Succeeded, t.plan.publication)
      && w'.remote == if changed == {} then t.head else t.head + [commit]
  {
    WorkIsChecked(env, w.clones[id].(tracking := w.remote), w.clones[id].phase.ticket);
  }

  /**
   * A rework that ended with work that may be published is recorded as succeeded. The next poll of the branch it leaves
   * dispatches the same attempt again exactly when the run changed nothing: it is publications that happen once, not
   * runs.
   */
  lemma ReworkRunsAgainExactly(env: Env, ws: seq<World>, id: CloneId)
    requires Run(env, ws) && id in ws[|ws| - 1].clones && ws[|ws| - 1].clones[id].phase.Ran?
    requires
      var w := ws[|ws| - 1];
      var t := w.clones[id].phase.ticket;
      t.plan.publication.Some? && MayPublish(env, w.clones[id].(tracking := w.remote), t)
    ensures
      var w := ws[|ws| - 1];
      var c, t := w.clones[id], w.clones[id].phase.ticket;
      var w' := Concluded(env, w, id);
      && id in w'.clones && w'.clones[id].phase.Idle?
      && w'.clones[id].memory == Memory(t.plan.checkpoint, Succeeded, t.plan.publication)
      && Decide(env, w'.remote, w'.clones[id].memory)
         == if ChangedPaths(env, HeadTree(t.head), c.work) == {}
            then Ok(Some(Plan(t.plan.checkpoint, t.plan.publication, true))) else Ok(None)
  {
    var w := ws[|ws| - 1];
    var t := w.clones[id].phase.ticket;
    RunInv(env, ws, |ws| - 1);
    assert CloneOk(env, w.remote, id, w.clones[id]);
    ConcludedLeaves(env, w, id);
    if ChangedPaths(env, HeadTree(t.head), w.clones[id].work) == {} {
      PollDecidesExactly(env, t.head, Memory(t.plan.checkpoint, Succeeded, t.plan.publication));
    } else {
      LandedIsPublished(env, w, id);
    }
  }

  lemma LandedIsPublished(env: Env, w: World, id: CloneId)
    requires id in w.clones && w.clones[id].phase.Ran? && CloneOk(env, w.remote, id, w.clones[id])
    requires MayPublish(env, w.clones[id].(tracking := w.remote), w.clones[id].phase.ticket)
    requires
      var c := w.clones[id];
      ChangedPaths(env, HeadTree(c.phase.ticket.head), c.work) != {}
    ensures
      var w' := Concluded(env, w, id);
      id in w'.clones && Decide(env, w'.remote, w'.clones[id].memory) == Ok(None)
  {
    var c := w.clones[id];
    var t := c.phase.ticket;
    var w' := Concluded(env, w, id);
    ConcludedLeaves(env, w, id);
    WorkIsChecked(env, c.(tracking := w.remote), t);
    CheckedWorkIsAuthorised(env, w.remote, c.(tracking := w.remote), t);
    var commit := w'.remote[|t.head|];
    assert Authorised(env, t.head, commit);
    assert HeadTree(w'.remote) == commit.tree;
    assert w'.remote[|t.head|].subject == commit.subject;
    PollOtherwise(env, w'.remote, w'.clones[id].memory);
  }

  // ---------------------------------------------------------------- what the Supervisor writes

  /**
   * With the repository's own parsers: whatever lies on top of it on the branch, an approval marker the Supervisor wrote
   * among lines that are no candidates for it is what starts are held to.
   */
  lemma WrittenApprovalGates(env: Env, decode: Decoder, ws: seq<World>, n: nat, c: Clone, plan: Plan, before: Note,
                             after: Note, cp: Checkpoint)
    requires env == Repository(env.issueId, env.notePath, decode, env.matches, env.ignored)
    requires Run(env, ws) && n < |ws| && c.tracking == ws[n].remote && |c.tracking| > 0
    requires Candidates(before, GATE_KEY) == [] && Candidates(after, GATE_KEY) == []
    requires
      var supervised := c.tracking[LastSupervisor(c.tracking)].tree;
      env.notePath in supervised && supervised[env.notePath] == before + [MarkerLine(GATE_KEY, Name(cp))] + after
    ensures Start(env, c, plan).Ok? <==>
              && !DoneBefore(c.memory, plan) && Rank(plan.checkpoint) <= Rank(cp) + 1
              && (plan.checkpoint in {CP2, CP3} ==> ReadyToWrite(env, c))
  {
    StartIsGated(env, ws, n, c, plan);
    SupervisorNoteIsRead(env, ws, n);
    ApprovalReadsBack(before, after, cp);
    assert ControlsIn(env, c.tracking[LastSupervisor(c.tracking)].tree).approval == Ok(cp);
  }

  /**
   * A Supervisor note with a second approval line lets nothing start: every start is refused, whatever the checkpoint,
   * clone, record and force flag, and every poll stops the watcher.
   */
  lemma TwoApprovalsStop(env: Env, decode: Decoder, ws: seq<World>, n: nat, c: Clone, plan: Plan, i: nat, j: nat)
    requires env == Repository(env.issueId, env.notePath, decode, env.matches, env.ignored)
    requires Run(env, ws) && n < |ws| && c.tracking == ws[n].remote && |c.tracking| > 0
    requires
      var supervised := c.tracking[LastSupervisor(c.tracking)].tree;
      env.notePath in supervised && i < j
      && BothMark(supervised[env.notePath], i, j, "codex-dispatch-supervisor-approved-through")
    ensures Start(env, c, plan).Err? && Decide(env, c.tracking, c.memory) == Err(MarkerCount)
  {
    var note := c.tracking[LastSupervisor(c.tracking)].tree[env.notePath];
    SecondMarkerIsRefused(decode, note, i, j);
    StartIsGated(env, ws, n, c, plan);
    SupervisorNoteIsRead(env, ws, n);
    assert ControlsIn(env, c.tracking[LastSupervisor(c.tracking)].tree).approval == Err(MarkerCount);
    assert ControlsAt(env, HeadTree(c.tracking)).Some?;
  }
}
