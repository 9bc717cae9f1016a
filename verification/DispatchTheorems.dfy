/** What the protocol guarantees about the branch, for every reachable world. */
module DispatchTheorems {
  import opened Wrappers
  import opened Text
  import opened Markers
  import opened DispatchMachine
  import opened DispatchInvariant

  /** The remote branch at the end of a run. */
  function Branch(ws: seq<World>): Chain
    requires |ws| > 0
  {
    ws[|ws| - 1].remote
  }

  predicate IsPublication(chain: Chain, j: nat) {
    j < |chain| && chain[j].origin.FromClone?
  }

  // ---------------------------------------------------------------- at most once

  lemma PublicationIsFresh(env: Env, chain: Chain, i: nat, j: nat)
    requires ChainOk(env, chain) && IsPublication(chain, j)
    requires i < j <= i + LOG_LIMIT
    ensures chain[i].subject != chain[j].subject
  {
    assert LinkOk(env, chain, j);
    assert chain[..j][i] == chain[i];
  }

  /**
   * However many watchers run and whatever the Supervisor pushes, a publication's subject is on none of the
   * 200 commits before it.
   */
  lemma PublishedAtMostOnce(env: Env, ws: seq<World>, i: nat, j: nat)
    requires Run(env, ws)
    requires i < j && IsPublication(Branch(ws), j)
    requires Branch(ws)[i].subject == Branch(ws)[j].subject
    ensures j - i > 200
  {
    RunInv(env, ws, |ws| - 1);
    if j - i <= LOG_LIMIT {
      PublicationIsFresh(env, Branch(ws), i, j);
    }
  }

  /** What a publication publishes: its checkpoint, and its rework attempt if it is one. */
  ghost predicate Publishes(env: Env, chain: Chain, j: nat, cp: Checkpoint, attempt: Option<nat>) {
    IsPublication(chain, j)
    && chain[j].subject == Message(env.issueId, cp, if attempt.Some? then Some(ReworkLabel(attempt.value)) else None)
  }

  lemma OwedLabel(controls: Controls) returns (attempt: Option<nat>)
    requires Owed(controls).Some?
    ensures Owed(controls).value.1 == (if attempt.Some? then Some(ReworkLabel(attempt.value)) else None)
    ensures attempt == (if controls.rework.value.Some? then Some(controls.rework.value.value.1) else None)
  {
    attempt := if controls.rework.value.Some? then Some(controls.rework.value.value.1) else None;
  }

  /** Every publication publishes one checkpoint and attempt, and no two within 200 commits publish the same. */
  lemma PublicationsAreKeyed(env: Env, ws: seq<World>, j: nat)
    returns (cp: Checkpoint, attempt: Option<nat>)
    requires Run(env, ws) && IsPublication(Branch(ws), j)
    ensures Publishes(env, Branch(ws), j, cp, attempt)
    ensures forall cp', attempt' | Publishes(env, Branch(ws), j, cp', attempt') :: cp' == cp && attempt' == attempt
    ensures forall i: nat | i < j && Publishes(env, Branch(ws), i, cp, attempt) :: j - i > 200
  {
    var chain := Branch(ws);
    RunInv(env, ws, |ws| - 1);
    assert LinkOk(env, chain, j);
    var controls := ControlsIn(env, HeadTree(chain[..j]));
    cp := Owed(controls).value.0;
    attempt := OwedLabel(controls);
    forall cp', attempt' | Publishes(env, chain, j, cp', attempt') ensures cp' == cp && attempt' == attempt {
      MessagesDistinguishAttempts(env.issueId, cp, attempt, cp', attempt');
    }
    forall i: nat | i < j && Publishes(env, chain, i, cp, attempt) ensures j - i > LOG_LIMIT {
      PublishedAtMostOnce(env, ws, i, j);
    }
  }

  // ---------------------------------------------------------------- the Supervisor stays in control

  lemma LinkKeepsControls(env: Env, chain: Chain, j: nat)
    requires IsPublication(chain, j) && LinkOk(env, chain, j)
    ensures j > 0
    ensures env.notePath in chain[j - 1].tree && env.notePath in chain[j].tree
    ensures ControlsIn(env, chain[j].tree) == ControlsIn(env, chain[j - 1].tree)
    ensures OwedIn(env, chain[j].tree) == OwedIn(env, chain[j - 1].tree)
    ensures OwedIn(env, chain[j].tree).Some? && chain[j].subject == Subject(env, OwedIn(env, chain[j].tree).value)
  {
    assert HeadTree(chain[..j]) == chain[j - 1].tree;
  }

  lemma PublicationKeepsControls(env: Env, chain: Chain, j: nat)
    requires ChainOk(env, chain) && IsPublication(chain, j)
    ensures j > 0
    ensures env.notePath in chain[j - 1].tree && env.notePath in chain[j].tree
    ensures ControlsIn(env, chain[j].tree) == ControlsIn(env, chain[j - 1].tree)
    ensures OwedIn(env, chain[j].tree) == OwedIn(env, chain[j - 1].tree)
    ensures OwedIn(env, chain[j].tree).Some? && chain[j].subject == Subject(env, OwedIn(env, chain[j].tree).value)
  {
    assert LinkOk(env, chain, j);
    LinkKeepsControls(env, chain, j);
  }

  lemma PublicationFollowsSupervisor(env: Env, chain: Chain, j: nat)
    requires ChainOk(env, chain) && IsPublication(chain, j)
    ensures j > 0 && chain[j - 1].origin == Supervisor
  {
    PublicationKeepsControls(env, chain, j);
    if IsPublication(chain, j - 1) {
      PublicationKeepsControls(env, chain, j - 1);
      PublicationIsFresh(env, chain, j - 1, j);
    }
  }

  /**
   * Two publications are never neighbours on the branch: each one stands directly on a Supervisor commit,
   * whose note authorised it.
   */
  lemma PublicationsFollowSupervisorCommits(env: Env, ws: seq<World>, j: nat)
    requires Run(env, ws) && IsPublication(Branch(ws), j)
    ensures j > 0 && Branch(ws)[j - 1].origin == Supervisor
    ensures Authorised(env, Branch(ws)[..j], Branch(ws)[j])
  {
    RunInv(env, ws, |ws| - 1);
    PublicationFollowsSupervisor(env, Branch(ws), j);
    assert LinkOk(env, Branch(ws), j);
  }

  /** The Supervisor commits a note that asks for something else than before. */
  predicate NewRequest(env: Env, chain: Chain, k: nat)
    requires 0 < k < |chain|
  {
    chain[k].origin == Supervisor && OwedIn(env, chain[k].tree) != OwedIn(env, chain[k - 1].tree)
  }

  lemma {:induction false} OwedUnchanged(env: Env, chain: Chain, i: nat, j: nat)
    requires ChainOk(env, chain) && i <= j < |chain|
    requires forall k | i < k <= j :: !NewRequest(env, chain, k)
    ensures OwedIn(env, chain[j].tree) == OwedIn(env, chain[i].tree)
  {
    if i < j {
      OwedUnchanged(env, chain, i, j - 1);
      assert !NewRequest(env, chain, j);
      if chain[j].origin.FromClone? {
        PublicationKeepsControls(env, chain, j);
      }
    }
  }

  /** Between two publications within 200 commits the Supervisor changed what the note asks for. */
  lemma EachPublicationNeedsItsOwnRequest(env: Env, ws: seq<World>, i: nat, j: nat)
    requires Run(env, ws)
    requires i < j <= i + 200 && IsPublication(Branch(ws), i) && IsPublication(Branch(ws), j)
    ensures exists k | i < k < j :: NewRequest(env, Branch(ws), k)
  {
    var chain := Branch(ws);
    RunInv(env, ws, |ws| - 1);
    PublicationKeepsControls(env, chain, i);
    PublicationKeepsControls(env, chain, j);
    if forall k | i < k < j :: !NewRequest(env, chain, k) {
      OwedUnchanged(env, chain, i, j - 1);
      PublicationIsFresh(env, chain, i, j);
    }
  }

  /** The newest Supervisor commit of a branch. */
  function LastSupervisor(chain: Chain): nat
    requires |chain| > 0
    ensures LastSupervisor(chain) < |chain|
  {
    if |chain| == 1 || chain[|chain| - 1].origin == Supervisor then |chain| - 1 else LastSupervisor(chain[..|chain| - 1])
  }

  lemma {:induction false} LastSupervisorIsLast(chain: Chain)
    requires |chain| > 0 && chain[0].origin == Supervisor
    ensures chain[LastSupervisor(chain)].origin == Supervisor
    ensures forall k | LastSupervisor(chain) < k < |chain| :: chain[k].origin != Supervisor
  {
    if |chain| > 1 && chain[|chain| - 1].origin != Supervisor {
      LastSupervisorIsLast(chain[..|chain| - 1]);
    }
  }

  predicate KeptAt<T(==)>(chain: Chain, j: nat, read: Tree -> T)
    requires 0 < j < |chain|
  {
    chain[j].origin.FromClone? ==> read(chain[j].tree) == read(chain[j - 1].tree)
  }

  /** What no publication changes is what the newest Supervisor commit made it. */
  lemma {:induction false} InheritedFromSupervisor<T>(chain: Chain, read: Tree -> T)
    requires |chain| > 0
    requires forall j: nat | 0 < j < |chain| :: KeptAt(chain, j, read)
    ensures read(HeadTree(chain)) == read(chain[LastSupervisor(chain)].tree)
  {
    var n := |chain| - 1;
    if n > 0 && chain[n].origin != Supervisor {
      assert KeptAt(chain, n, read);
      forall j: nat | 0 < j < n ensures KeptAt(chain[..n], j, read) {
        assert KeptAt(chain, j, read);
      }
      InheritedFromSupervisor(chain[..n], read);
    }
  }

  function ControlsAt(env: Env, tree: Tree): Option<Controls> {
    if env.notePath in tree then Some(ControlsIn(env, tree)) else None
  }

  function FileAt(path: string, tree: Tree): Option<Note> {
    if path in tree then Some(tree[path]) else None
  }

  /** Only the Supervisor moves the markers: the note anywhere says what the newest Supervisor note says. */
  lemma MarkersAreTheSupervisors(env: Env, chain: Chain)
    requires ChainOk(env, chain)
    ensures ControlsAt(env, HeadTree(chain)) == ControlsAt(env, chain[LastSupervisor(chain)].tree)
  {
    var read := tree => ControlsAt(env, tree);
    forall j: nat | 0 < j < |chain| ensures KeptAt(chain, j, read) {
      if chain[j].origin.FromClone? {
        PublicationKeepsControls(env, chain, j);
      }
    }
    InheritedFromSupervisor(chain, read);
  }

  lemma PrefixOk(env: Env, chain: Chain, n: nat)
    requires ChainOk(env, chain) && 0 < n <= |chain|
    ensures ChainOk(env, chain[..n])
  {
    forall j: nat | j < n ensures LinkOk(env, chain[..n], j) {
      assert LinkOk(env, chain, j);
      assert chain[..n][..j] == chain[..j];
    }
  }

  /** Whatever a clone is executing, or about to publish. */
  function TicketOf(p: Phase): Option<Ticket> {
    match p
    case Running(t) => Some(t)
    case Ran(t) => Some(t)
    case Committed(t) => Some(t)
    case _ => None
  }

  /**
   * An executor runs checkpoint k only while the newest note the Supervisor wrote approves exactly
   * checkpoint k - 1, on the branch the run started from.
   */
  lemma RunsAreApproved(env: Env, ws: seq<World>, id: CloneId)
    requires Run(env, ws) && id in ws[|ws| - 1].clones && TicketOf(ws[|ws| - 1].clones[id].phase).Some?
    ensures var t := TicketOf(ws[|ws| - 1].clones[id].phase).value;
            && |t.head| > 0 && t.head <= Branch(ws)
            && var supervised := t.head[LastSupervisor(t.head)];
               && supervised.origin == Supervisor && env.notePath in supervised.tree
               && ControlsIn(env, supervised.tree).approval.Ok?
               && Required(t.plan.checkpoint) == Some(ControlsIn(env, supervised.tree).approval.value)
  {
    var w := ws[|ws| - 1];
    RunInv(env, ws, |ws| - 1);
    assert CloneOk(env, w.remote, id, w.clones[id]);
    var t := TicketOf(w.clones[id].phase).value;
    assert t.head == w.remote[..|t.head|];
    PrefixOk(env, w.remote, |t.head|);
    assert LinkOk(env, t.head, 0);
    LastSupervisorIsLast(t.head);
    MarkersAreTheSupervisors(env, t.head);
    assert ControlsAt(env, HeadTree(t.head)).Some?;
    OwedIsAuthorised(ControlsIn(env, HeadTree(t.head)));
  }

  /** The note of the newest Supervisor commit approves the checkpoint before `cp`, or a later one. */
  predicate SupervisorApproves(env: Env, chain: Chain, cp: Checkpoint) {
    && |chain| > 0
    && var supervised := chain[LastSupervisor(chain)];
       && supervised.origin == Supervisor && env.notePath in supervised.tree
       && ControlsIn(env, supervised.tree).approval.Ok?
       && Rank(cp) <= Rank(ControlsIn(env, supervised.tree).approval.value) + 1
  }

  /** What a write checkpoint needs besides: the newest Supervisor note's allowlist, and a clone ready to write. */
  predicate ReadyToWrite(env: Env, c: Clone)
    requires |c.tracking| > 0
  {
    && c.local == c.tracking && Clean(env, c)
    && var supervised := c.tracking[LastSupervisor(c.tracking)];
       env.notePath in supervised.tree && ControlsIn(env, supervised.tree).allow.Ok?
  }

  /** The clone's record says this checkpoint has succeeded, and the start is not forced. */
  predicate DoneBefore(memory: Memory, plan: Plan) {
    !plan.force && memory.Memory? && memory.checkpoint == plan.checkpoint && memory.status == Succeeded
  }

  /** What the fetched note says lets this plan start in this clone. */
  predicate MayStart(env: Env, c: Clone, plan: Plan) {
    && !DoneBefore(c.memory, plan)
    && env.notePath in HeadTree(c.tracking)
    && var controls := ControlsIn(env, HeadTree(c.tracking));
       && controls.approval.Ok? && Rank(plan.checkpoint) <= Rank(controls.approval.value) + 1
       && (IsWrite(plan.checkpoint) ==> controls.allow.Ok? && c.local == c.tracking && Clean(env, c))
  }

  lemma StartReadsNote(env: Env, c: Clone, plan: Plan)
    ensures Start(env, c, plan).Ok? <==> MayStart(env, c, plan)
    ensures Start(env, c, plan).Ok? ==>
              var t := Start(env, c, plan).value;
              && t.plan == plan && t.head == c.tracking && t.note == HeadTree(c.tracking)[env.notePath]
              && (IsWrite(plan.checkpoint) ==> Ok(t.patterns) == ControlsIn(env, HeadTree(c.tracking)).allow)
  {
  }

  lemma SupervisorNoteIsRead(env: Env, ws: seq<World>, n: nat)
    requires Run(env, ws) && n < |ws|
    ensures |ws[n].remote| > 0 && ws[n].remote[LastSupervisor(ws[n].remote)].origin == Supervisor
    ensures ControlsAt(env, HeadTree(ws[n].remote)) == ControlsAt(env, ws[n].remote[LastSupervisor(ws[n].remote)].tree)
  {
    RunInv(env, ws, n);
    assert LinkOk(env, ws[n].remote, 0);
    LastSupervisorIsLast(ws[n].remote);
    MarkersAreTheSupervisors(env, ws[n].remote);
  }

  /**
   * The dispatcher's gate, on any branch a run reaches, for every checkpoint, clone, record and force flag: a start
   * against the freshly fetched head succeeds exactly when the newest Supervisor note approves the checkpoint before it
   * or a later one, the record does not say it is done, and for a write checkpoint the clone is ready to write.
   */
  lemma StartIsGated(env: Env, ws: seq<World>, n: nat, c: Clone, plan: Plan)
    requires Run(env, ws) && n < |ws| && c.tracking == ws[n].remote
    ensures |c.tracking| > 0
    ensures Start(env, c, plan).Ok? <==>
              && !DoneBefore(c.memory, plan)
              && SupervisorApproves(env, c.tracking, plan.checkpoint)
              && (plan.checkpoint in {CP2, CP3} ==> ReadyToWrite(env, c))
    ensures Start(env, c, plan).Ok? && plan.checkpoint in {CP2, CP3} ==>
              Start(env, c, plan).value.patterns
              == ControlsIn(env, c.tracking[LastSupervisor(c.tracking)].tree).allow.value
  {
    SupervisorNoteIsRead(env, ws, n);
    StartReadsNote(env, c, plan);
    assert ControlsAt(env, HeadTree(c.tracking)).Some? <==> env.notePath in HeadTree(c.tracking);
  }

  // ---------------------------------------------------------------- what is published

  lemma LinkAllowsPath(env: Env, chain: Chain, j: nat, path: string)
    requires IsPublication(chain, j) && LinkOk(env, chain, j)
    ensures j > 0 && env.notePath in chain[j - 1].tree && ControlsIn(env, chain[j - 1].tree).allow.Ok?
    ensures path in Differing(chain[j - 1].tree, chain[j].tree) ==>
              PathAllowed(env, path, ControlsIn(env, chain[j - 1].tree).allow.value)
  {
    assert HeadTree(chain[..j]) == chain[j - 1].tree;
  }

  /**
   * A published commit is a direct child of the head whose note authorised it, and every path it changes is
   * unprotected and on that note's list, whatever the executor did to the working tree.
   */
  lemma PublishedPathsAreAllowed(env: Env, ws: seq<World>, j: nat, path: string)
    requires Run(env, ws) && IsPublication(Branch(ws), j)
    ensures j > 0 && env.notePath in Branch(ws)[j - 1].tree
    ensures ControlsIn(env, Branch(ws)[j - 1].tree).allow.Ok?
    ensures path in Differing(Branch(ws)[j - 1].tree, Branch(ws)[j].tree) ==>
              && !Protected(path)
              && exists pattern | pattern in ControlsIn(env, Branch(ws)[j - 1].tree).allow.value ::
                   env.matches(path, pattern)
  {
    var chain := Branch(ws);
    RunInv(env, ws, |ws| - 1);
    assert LinkOk(env, chain, j);
    LinkAllowsPath(env, chain, j, path);
  }

  /** A protected file is only ever what the Supervisor last made it. */
  lemma ProtectedFilesAreTheSupervisors(env: Env, chain: Chain, path: string)
    requires ChainOk(env, chain) && Protected(path)
    ensures FileAt(path, HeadTree(chain)) == FileAt(path, chain[LastSupervisor(chain)].tree)
  {
    var read := tree => FileAt(path, tree);
    forall j: nat | 0 < j < |chain| ensures KeptAt(chain, j, read) {
      if chain[j].origin.FromClone? {
        assert LinkOk(env, chain, j);
        LinkAllowsPath(env, chain, j, path);
      }
    }
    InheritedFromSupervisor(chain, read);
  }

  /** The files and directories of the repository that publications keep away from. */
  ghost predicate KeptFromPublications(path: string) {
    || path == ".gitignore" || path == "AGENTS.md" || path == "docs/PROJECT_STATE.md" || path == "scripts/codex_dispatch.py"
    || path == "docs/codex-dispatcher.md" || path == "docs/issues/README.md"
    || (exists rest :: path == ".git/" + rest || path == ".github/" + rest || path == ".codex-dispatch/" + rest)
  }

  lemma KeptIsProtected(path: string)
    ensures KeptFromPublications(path) <==> Protected(path)
  {
    if StartsWith(path, ".git/") {
      assert path == ".git/" + path[5..];
    } else if StartsWith(path, ".github/") {
      assert path == ".github/" + path[8..];
    } else if StartsWith(path, ".codex-dispatch/") {
      assert path == ".codex-dispatch/" + path[16..];
    }
  }

  /** No publication adds, changes or removes one of them: it is what the newest Supervisor commit made it. */
  lemma PublicationsKeepAway(env: Env, ws: seq<World>, j: nat, path: string)
    requires Run(env, ws) && KeptFromPublications(path) && j < |Branch(ws)|
    ensures IsPublication(Branch(ws), j) ==>
              j > 0 && FileAt(path, Branch(ws)[j].tree) == FileAt(path, Branch(ws)[j - 1].tree)
    ensures FileAt(path, Branch(ws)[j].tree) == FileAt(path, Branch(ws)[LastSupervisor(Branch(ws)[..j + 1])].tree)
  {
    var chain := Branch(ws);
    RunInv(env, ws, |ws| - 1);
    KeptIsProtected(path);
    PrefixOk(env, chain, j + 1);
    ProtectedFilesAreTheSupervisors(env, chain[..j + 1], path);
    if IsPublication(chain, j) {
      assert LinkOk(env, chain, j);
      LinkAllowsPath(env, chain, j, path);
    }
  }

  /** A fast-forward leaves exactly the new head's files and, beside them, the clone's own untracked ones. */
  lemma PullTakesTheHead(remote: Chain, c: Clone, path: string)
    requires c.local <= remote
    ensures
      var d := Pull(remote, c);
      && d.phase.Pulled? && d.local == d.tracking == remote && d.memory == c.memory
      && FileAt(path, d.work)
         == if path in HeadTree(remote) then Some(HeadTree(remote)[path])
            else if path in HeadTree(c.local) then None else FileAt(path, c.work)
  {
  }

  /** The commit takes the executor's work whole: nothing changed is left behind, nothing else is taken along. */
  lemma CommitTakesAllWork(env: Env, base: Tree, work: Tree)
    ensures var tree := CommitTree(base, work, ChangedPaths(env, base, work));
            && ChangedPaths(env, tree, work) == {}
            && Differing(base, tree) == ChangedPaths(env, base, work)
            && (forall p | p in tree :: (p in work && tree[p] == work[p]))
            && (forall p | p in work && p !in tree :: env.ignored(work, p) && p !in base)
            && (forall p | p in work && p !in base && env.ignored(work, p) :: p !in tree)
            && (forall p | p in base && p !in work :: p !in tree)
  {
    CommitDiffers(env, base, work);
  }

  /** The clone still stands where its run started, its note says the same, and what it changed may be changed. */
  predicate MayPublish(env: Env, c: Clone, t: Ticket) {
    && c.tracking == t.head == c.local
    && env.notePath in c.work && env.read(c.work[env.notePath]) == env.read(t.note)
    && env.read(t.note).approval.Ok? && env.read(t.note).allow.Ok? && env.read(t.note).rework.Ok?
    && forall p | p in ChangedPaths(env, HeadTree(t.head), c.work) :: PathAllowed(env, p, t.patterns)
  }

  lemma WorkIsChecked(env: Env, c: Clone, t: Ticket)
    ensures CheckWork(env, c, t).Ok? <==> MayPublish(env, c, t)
    ensures CheckWork(env, c, t).Ok? ==> CheckWork(env, c, t).value == ChangedPaths(env, HeadTree(t.head), c.work)
  {
  }

  // ---------------------------------------------------------------- the branch over time

  lemma {:induction false} BranchOnlyGrows(env: Env, ws: seq<World>, m: nat, n: nat)
    requires Run(env, ws) && m <= n < |ws|
    ensures ws[m].remote <= ws[n].remote
  {
    if m < n {
      BranchOnlyGrows(env, ws, m, n - 1);
      assert StepAt(env, ws, n - 1);
      var a :| Allowed(ws[n - 1], a) && ws[n] == Apply(env, ws[n - 1], a);
      assert ws[n - 1].remote <= ws[n].remote;
    }
  }

  /**
   * A run that started from a head the Supervisor has since moved publishes nothing: once the branch has left
   * the head of a ticket for another commit, no push of that ticket's work is ever taken.
   */
  lemma StaleWorkIsRefused(env: Env, ws: seq<World>, id: CloneId, reply: PushResult)
    requires Run(env, ws) && Allowed(ws[|ws| - 1], Push(id, reply))
    ensures var w := ws[|ws| - 1];
            var c := w.clones[id];
            var w' := Apply(env, w, Push(id, reply));
            && (w'.remote != w.remote ==>
                  w.remote == c.phase.ticket.head && w'.remote == w.remote + [c.local[|w.remote|]])
            && (w.remote != c.phase.ticket.head ==> w'.remote == w.remote && w'.clones[id].phase.Halted?)
  {
    var w := ws[|ws| - 1];
    RunInv(env, ws, |ws| - 1);
    assert CloneOk(env, w.remote, id, w.clones[id]);
    if w.remote <= w.clones[id].local {
      PushTakesAuthorisedCommit(env, w.remote, id, w.clones[id]);
    }
  }

  /** An acknowledged push puts exactly the clone's own commit on the branch, on top of a Supervisor commit. */
  lemma PushLands(env: Env, w: World, id: CloneId)
    requires Inv(env, w) && Allowed(w, Push(id, Acknowledged)) && w.remote <= w.clones[id].local
    ensures var c := w.clones[id];
            |w.remote| > 0 && w.remote == c.phase.ticket.head && c.local == w.remote + [c.local[|w.remote|]]
            && w.remote[|w.remote| - 1].origin == Supervisor
  {
    PushTakesAuthorisedCommit(env, w.remote, id, w.clones[id]);
    ApplyKeeps(env, w, Push(id, Acknowledged));
    PublicationFollowsSupervisor(env, w.clones[id].local, |w.remote|);
  }

  // ---------------------------------------------------------------- the poll

  /** The watcher's own record holds a publication back. */
  predicate HeldBack(memory: Memory, owed: (Checkpoint, Option<string>)) {
    if owed.1 == None then memory.Memory? && memory.checkpoint == owed.0 else memory == Memory(owed.0, Failed, owed.1)
  }

  /**
   * A poll dispatches exactly when the note is there, its markers ask for a write checkpoint, the publication is
   * not among the newest 200 commits, and the watcher's record does not hold it back: for a first publication
   * any earlier run of that checkpoint does, for a rework only a failed run of that very attempt. It dispatches
   * what the note asks for, and forces it only for a rework.
   */
  lemma PollDecidesExactly(env: Env, tracking: Chain, memory: Memory)
    ensures (Decide(env, tracking, memory).Ok? && Decide(env, tracking, memory).value.Some?)
            <==> OwedIn(env, HeadTree(tracking)).Some?
                 && !Published(tracking, Subject(env, OwedIn(env, HeadTree(tracking)).value))
                 && !HeldBack(memory, OwedIn(env, HeadTree(tracking)).value)
    ensures Decide(env, tracking, memory).Ok? && Decide(env, tracking, memory).value.Some? ==>
              var owed := OwedIn(env, HeadTree(tracking)).value;
              Decide(env, tracking, memory).value.value == Plan(owed.0, owed.1, owed.1.Some?)
  {
    if env.notePath in HeadTree(tracking) {
      var controls := ControlsIn(env, HeadTree(tracking));
      if controls.approval.Ok? && WriteAfter(controls.approval.value).Some? && controls.rework.Ok? {
        var cp := WriteAfter(controls.approval.value).value;
        match controls.rework.value {
          case None =>
            assert Decide(env, tracking, memory) == FirstPublication(env, tracking, memory, cp);
          case Some((target, attempt)) =>
            if target == cp {
              assert Decide(env, tracking, memory) == Rework(env, tracking, memory, cp, attempt);
            }
        }
      }
    }
  }

  /** What the note owes is already on the branch. */
  predicate OwedIsPublished(env: Env, tracking: Chain) {
    OwedIn(env, HeadTree(tracking)).Some? && Published(tracking, Subject(env, OwedIn(env, HeadTree(tracking)).value))
  }

  /** What the note owes is not on the branch, but the watcher's record holds it back. */
  predicate OwedIsHeldBack(env: Env, tracking: Chain, memory: Memory) {
    && OwedIn(env, HeadTree(tracking)).Some? && !OwedIsPublished(env, tracking)
    && HeldBack(memory, OwedIn(env, HeadTree(tracking)).value)
  }

  /** A published publication is passed over in silence; one that is held back stops the watcher. */
  lemma PollOtherwise(env: Env, tracking: Chain, memory: Memory)
    ensures OwedIsPublished(env, tracking) ==> Decide(env, tracking, memory) == Ok(None)
    ensures OwedIsHeldBack(env, tracking, memory) ==>
              Decide(env, tracking, memory) in {Err(PublicationMissing), Err(PreviouslyFailed)}
  {
    if OwedIn(env, HeadTree(tracking)).Some? {
      var controls := ControlsIn(env, HeadTree(tracking));
      var cp := WriteAfter(controls.approval.value).value;
      match controls.rework.value {
        case None =>
          assert Decide(env, tracking, memory) == FirstPublication(env, tracking, memory, cp);
        case Some((_, attempt)) =>
          assert Decide(env, tracking, memory) == Rework(env, tracking, memory, cp, attempt);
      }
    }
  }

  // ---------------------------------------------------------------- an undisturbed poll publishes

  /**
   * The first half of an undisturbed poll: an idle, clean clone with nothing of its own starts what is owed, unless an
   * ignore file that the pull changed uncovers an untracked file; then the watcher stops.
   */
  lemma QuietPollStarts(env: Env, remote: Chain, c: Clone)
    requires c.phase.Idle? && Clean(env, c) && c.local <= remote
    requires OwedIn(env, HeadTree(remote)).Some? && ControlsIn(env, HeadTree(remote)).allow.Ok?
    requires !Published(remote, Subject(env, OwedIn(env, HeadTree(remote)).value))
    requires !HeldBack(c.memory, OwedIn(env, HeadTree(remote)).value)
    ensures var owed := OwedIn(env, HeadTree(remote)).value;
            var plan := Plan(owed.0, owed.1, owed.1.Some?);
            var pulled := Pull(remote, FetchFirst(env, remote, c));
            var polled := Poll(env, remote, pulled);
            && polled == pulled.(phase := Planned(plan))
            && Dispatch(env, remote, polled, plan)
               == polled.(phase := if Clean(env, pulled) then Running(HeadTicket(env, remote, plan)) else Halted)
            && polled.local == polled.tracking == remote
  {
    PollDecidesExactly(env, remote, c.memory);
    OwedIsAuthorised(ControlsIn(env, HeadTree(remote)));
  }

  /** The ticket for a plan against the head of a branch. */
  function HeadTicket(env: Env, remote: Chain, plan: Plan): Ticket
    requires env.notePath in HeadTree(remote) && ControlsIn(env, HeadTree(remote)).allow.Ok?
  {
    Ticket(plan, remote, HeadTree(remote)[env.notePath], ControlsIn(env, HeadTree(remote)).allow.value)
  }

  /**
   * The second half: whatever allowed change the executor makes while the markers stay as they are is committed
   * whole and lands on the branch, and the clone is clean and idle again.
   */
  lemma QuietRunPublishes(env: Env, remote: Chain, id: CloneId, c: Clone, t: Ticket, work: Tree)
    requires TicketOk(env, t, remote) && c.phase == Running(t) && remote == t.head == c.local
    requires env.notePath in work && env.read(work[env.notePath]) == env.read(t.note)
    requires ChangedPaths(env, HeadTree(remote), work) != {}
    requires forall p | p in ChangedPaths(env, HeadTree(remote), work) :: PathAllowed(env, p, t.patterns)
    ensures var ran := Finish(c.(work := work), t, Completed);
            var committed := CommitWork(env, remote, id, ran, t, true);
            var pushed := AfterPush(remote, committed, t, Acknowledged);
            var commit := Commit(FromClone(id), Message(env.issueId, t.plan.checkpoint, t.plan.publication),
                                 CommitTree(HeadTree(remote), work, ChangedPaths(env, HeadTree(remote), work)));
            && committed.phase == Committed(t)
            && RemoteAfterPush(remote, committed.local, Acknowledged) == remote + [commit]
            && pushed.phase.Idle? && pushed.local == pushed.tracking == remote + [commit] && Clean(env, pushed)
  {
    CommitTakesAllWork(env, HeadTree(remote), work);
  }
}
