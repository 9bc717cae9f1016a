/**
 * Watchers in separate clones, one remote issue branch, and a Supervisor who may push at any time.
 * A commit is identified with its whole history, as its hash is: two heads are the same exactly when
 * their chains are equal.
 */
module DispatchMachine {
  import opened Wrappers
  import opened Text
  import opened Markers

  /**
   * What the protocol is run with. It never looks inside a note except through `read`, so what follows holds
   * for every way of reading markers; `Repository` is the one the scripts use.
   */
  datatype Env = Env(
    issueId: string,
    notePath: string,
    read: Note -> Controls,
    matches: (string, string) -> bool,
    ignored: (Tree, string) -> bool)

  function Repository(issueId: string, notePath: string, decode: Decoder,
                      matches: (string, string) -> bool, ignored: (Tree, string) -> bool): Env {
    Env(issueId, notePath, note => ControlsOf(decode, note), matches, ignored)
  }

  type CloneId = nat
  type Tree = map<string, Note>

  datatype Origin = Supervisor | FromClone(id: CloneId)

  datatype Commit = Commit(origin: Origin, subject: string, tree: Tree)

  type Chain = seq<Commit>

  datatype RunStatus = Succeeded | Failed

  /** The issue's entry of the clone's state file. */
  datatype Memory = NoMemory | Memory(checkpoint: Checkpoint, status: RunStatus, publication: Option<string>)

  /** What the poll decided to dispatch. */
  datatype Plan = Plan(checkpoint: Checkpoint, publication: Option<string>, force: bool)

  /** What dispatch fixed before the executor started. */
  datatype Ticket = Ticket(plan: Plan, head: Chain, note: Note, patterns: seq<string>)

  datatype Phase =
    | Idle
    | Fetched
    | Pulled
    | Planned(plan: Plan)
    | Running(ticket: Ticket)
    | Ran(ticket: Ticket)
    | Committed(ticket: Ticket)
    | Halted

  datatype Clone = Clone(local: Chain, tracking: Chain, work: Tree, memory: Memory, phase: Phase)

  datatype World = World(remote: Chain, clones: map<CloneId, Clone>)

  /** `TurnFailed` is a failed run whose process still exits with zero. */
  datatype RunResult = Completed | TurnFailed | Crashed

  datatype PushResult = Acknowledged | LostReply | NoConnection

  datatype Action =
    | SupervisorPush(subject: string, tree: Tree)
    | Proceed(clone: CloneId)
    | Execute(clone: CloneId, local: Chain, work: Tree, result: RunResult)
    | Publish(clone: CloneId, checked: bool)
    | Push(clone: CloneId, reply: PushResult)
    | Break(clone: CloneId)
    | Operator(clone: CloneId, local: Chain, work: Tree, memory: Memory)

  // ---------------------------------------------------------------- repository reads

  function HeadTree(chain: Chain): Tree {
    if chain == [] then map[] else chain[|chain| - 1].tree
  }

  function NoteIn(env: Env, tree: Tree): Result<Note, DispatchError> {
    if env.notePath in tree then Ok(tree[env.notePath]) else Err(NoteMissing)
  }

  /**
   * git diff --name-only HEAD together with the untracked files that are not ignored; what is ignored depends on the
   * ignore files of the working tree itself.
   */
  function ChangedPaths(env: Env, base: Tree, work: Tree): set<string> {
    (set p | p in base.Keys && (p !in work || work[p] != base[p]))
    + (set p | p in work.Keys && p !in base && !env.ignored(work, p))
  }

  predicate Clean(env: Env, c: Clone) {
    ChangedPaths(env, HeadTree(c.local), c.work) == {}
  }

  const LOG_LIMIT := 200

  /** git log -n 200: the subject is on one of the newest 200 commits. */
  predicate Published(chain: Chain, subject: string) {
    exists i | 0 <= i < |chain| :: |chain| - LOG_LIMIT <= i && chain[i].subject == subject
  }

  const PROTECTED_PATHS := {".gitignore", "AGENTS.md", "docs/PROJECT_STATE.md", "docs/codex-dispatcher.md",
                            "docs/issues/README.md", "scripts/codex_dispatch.py"}

  predicate Protected(path: string) {
    path in PROTECTED_PATHS
    || StartsWith(path, ".git/") || StartsWith(path, ".codex-dispatch/") || StartsWith(path, ".github/")
  }

  predicate PathAllowed(env: Env, path: string, patterns: seq<string>) {
    !Protected(path) && exists pattern | pattern in patterns :: env.matches(path, pattern)
  }

  /** The tree git add and git commit build from the changed paths. */
  function CommitTree(base: Tree, work: Tree, changed: set<string>): Tree {
    (map p | p in base.Keys && p !in changed :: base[p]) + (map p | p in work.Keys && p in changed :: work[p])
  }

  // ---------------------------------------------------------------- decisions

  /** The watcher's decision after a poll: nothing to do, a plan, or an error that stops it. */
  function Decide(env: Env, tracking: Chain, memory: Memory): Result<Option<Plan>, DispatchError> {
    match NoteIn(env, HeadTree(tracking))
    case Err(e) => Err(e)
    case Ok(note) =>
      match env.read(note).approval
      case Err(e) => Err(e)
      case Ok(approved) =>
        match WriteAfter(approved)
        case None => Ok(None)
        case Some(candidate) =>
          match env.read(note).rework
          case Err(e) => Err(e)
          case Ok(None) => FirstPublication(env, tracking, memory, candidate)
          case Ok(Some((target, attempt))) =>
            if target != candidate then Err(ReworkMismatch) else Rework(env, tracking, memory, candidate, attempt)
  }

  function FirstPublication(env: Env, tracking: Chain, memory: Memory, cp: Checkpoint)
    : Result<Option<Plan>, DispatchError>
  {
    if Published(tracking, Message(env.issueId, cp, None)) then Ok(None)
    else if memory.Memory? && memory.checkpoint == cp then
      Err(if memory.status == Succeeded then PublicationMissing else PreviouslyFailed)
    else Ok(Some(Plan(cp, None, false)))
  }

  function Rework(env: Env, tracking: Chain, memory: Memory, cp: Checkpoint, attempt: nat)
    : Result<Option<Plan>, DispatchError>
  {
    var publication := Some(ReworkLabel(attempt));
    if Published(tracking, Message(env.issueId, cp, publication)) then Ok(None)
    else if memory == Memory(cp, Failed, publication) then Err(PreviouslyFailed)
    else Ok(Some(Plan(cp, publication, true)))
  }

  /**
   * dispatch up to the executor: every check against the freshly fetched remote. Only a write checkpoint asks for a
   * clean working tree, an allowlist and a synchronized head.
   */
  function Start(env: Env, c: Clone, plan: Plan): Result<Ticket, DispatchError> {
    if !plan.force && c.memory.Memory? && c.memory.checkpoint == plan.checkpoint && c.memory.status == Succeeded then
      Err(AlreadySucceeded)
    else match NoteIn(env, HeadTree(c.tracking))
         case Err(e) => Err(e)
         case Ok(note) =>
           match env.read(note).approval
           case Err(e) => Err(e)
           case Ok(approved) =>
             if Required(plan.checkpoint).Some?
                   && Rank(approved) < Rank(Required(plan.checkpoint).value) then Err(NotApproved)
             else if !IsWrite(plan.checkpoint) then Ok(Ticket(plan, c.tracking, note, []))
             else if !Clean(env, c) then Err(DirtyWorktree)
             else match env.read(note).allow
                  case Err(e) => Err(e)
                  case Ok(patterns) =>
                    if c.local != c.tracking then Err(NotSynchronized)
                    else Ok(Ticket(plan, c.tracking, note, patterns))
  }

  /** Both notes parse, one marker after the other, and agree on it. */
  function MarkersKept(theirs: Controls, ours: Controls): Result<(), DispatchError> {
    if theirs.approval.Err? then Err(theirs.approval.error)
    else if ours.approval.Err? then Err(ours.approval.error)
    else if ours.approval != theirs.approval then Err(MarkersChanged)
    else if theirs.allow.Err? then Err(theirs.allow.error)
    else if ours.allow.Err? then Err(ours.allow.error)
    else if ours.allow != theirs.allow then Err(MarkersChanged)
    else if theirs.rework.Err? then Err(theirs.rework.error)
    else if ours.rework.Err? then Err(ours.rework.error)
    else if ours.rework != theirs.rework then Err(MarkersChanged)
    else Ok(())
  }

  /** publish_write_checkpoint up to the commit: nothing to publish, or the changed paths. */
  function CheckWork(env: Env, c: Clone, t: Ticket): Result<set<string>, DispatchError> {
    if c.tracking != t.head then Err(RemoteChanged)
    else if c.local != t.head then Err(LocalHeadChanged)
    else match NoteIn(env, c.work)
         case Err(e) => Err(e)
         case Ok(localNote) =>
           match MarkersKept(env.read(t.note), env.read(localNote))
           case Err(e) => Err(e)
           case Ok(_) =>
             var changed := ChangedPaths(env, HeadTree(c.local), c.work);
             if forall p | p in changed :: PathAllowed(env, p, t.patterns) then Ok(changed) else Err(PathNotAllowed)
  }

  // ---------------------------------------------------------------- steps

  /** The files git leaves in the working tree when it moves from one tree to another. */
  function Checkout(work: Tree, from: Tree, to: Tree): Tree {
    (map p | p in work.Keys && p !in from.Keys :: work[p]) + to
  }

  function FetchFirst(env: Env, remote: Chain, c: Clone): Clone {
    if Clean(env, c) then c.(tracking := remote, phase := Fetched) else c.(phase := Halted)
  }

  /** git pull --ff-only. */
  function Pull(remote: Chain, c: Clone): Clone {
    if c.local <= remote then
      c.(tracking := remote, local := remote, work := Checkout(c.work, HeadTree(c.local), HeadTree(remote)),
            phase := Pulled)
    else if remote <= c.local then c.(tracking := remote, phase := Pulled)
    else c.(tracking := remote, phase := Halted)
  }

  function Poll(env: Env, remote: Chain, c: Clone): Clone {
    match Decide(env, remote, c.memory)
    case Err(_) => c.(tracking := remote, phase := Halted)
    case Ok(None) => c.(tracking := remote, phase := Idle)
    case Ok(Some(plan)) => c.(tracking := remote, phase := Planned(plan))
  }

  function Dispatch(env: Env, remote: Chain, c: Clone, plan: Plan): Clone {
    match Start(env, c.(tracking := remote), plan)
    case Err(_) => c.(tracking := remote, phase := Halted)
    case Ok(t) => c.(tracking := remote, phase := Running(t))
  }

  function Remember(c: Clone, plan: Plan, status: RunStatus, phase: Phase): Clone {
    c.(memory := Memory(plan.checkpoint, status, plan.publication), phase := phase)
  }

  function Finish(c: Clone, t: Ticket, result: RunResult): Clone {
    match result
    case Completed => c.(phase := Ran(t))
    case TurnFailed => Remember(c, t.plan, Failed, Idle)
    case Crashed => Remember(c, t.plan, Failed, Halted)
  }

  /** Fetch, compare, check and commit; `checked` is the outcome of git diff --cached --check and the commit hooks. */
  function CommitWork(env: Env, remote: Chain, id: CloneId, c: Clone, t: Ticket, checked: bool): Clone {
    var d := c.(tracking := remote);
    match CheckWork(env, d, t)
    case Err(_) => d.(phase := Halted)
    case Ok(changed) =>
      if changed == {} then Remember(d, t.plan, Succeeded, Idle)
      else if !checked then d.(phase := Halted)
      else
        var commit := Commit(FromClone(id), Message(env.issueId, t.plan.checkpoint, t.plan.publication),
                             CommitTree(HeadTree(d.local), d.work, changed));
        d.(local := d.local + [commit], phase := Committed(t))
  }

  /** The server takes a push only when it extends the remote branch. */
  function RemoteAfterPush(remote: Chain, local: Chain, reply: PushResult): Chain {
    if reply != NoConnection && remote <= local then local else remote
  }

  function AfterPush(remote: Chain, c: Clone, t: Ticket, reply: PushResult): Clone {
    if reply == Acknowledged && remote <= c.local then Remember(c.(tracking := c.local), t.plan, Succeeded, Idle)
    else c.(phase := Halted)
  }

  // ---------------------------------------------------------------- scheduling

  function CommonLength(a: Chain, b: Chain): nat {
    if a == [] || b == [] || a[0] != b[0] then 0 else 1 + CommonLength(a[1..], b[1..])
  }

  /**
   * A clone's branch follows the remote, except for commits made in that clone: its first commit that
   * the remote does not have at that place is its own.
   */
  predicate OwnWork(local: Chain, remote: Chain, id: CloneId) {
    var k := CommonLength(local, remote);
    k < |local| ==> local[k].origin == FromClone(id)
  }

  predicate CanProceed(p: Phase) {
    p.Idle? || p.Fetched? || p.Pulled? || p.Planned?
  }

  predicate Allowed(w: World, a: Action) {
    match a
    case SupervisorPush(_, _) => true
    case Proceed(c) => c in w.clones && CanProceed(w.clones[c].phase)
    case Execute(c, local, _, _) => c in w.clones && w.clones[c].phase.Running? && OwnWork(local, w.remote, c)
    case Publish(c, _) => c in w.clones && w.clones[c].phase.Ran?
    case Push(c, _) => c in w.clones && w.clones[c].phase.Committed?
    case Break(c) => c in w.clones
    case Operator(c, local, _, _) =>
      c in w.clones && (w.clones[c].phase.Idle? || w.clones[c].phase.Halted?) && OwnWork(local, w.remote, c)
  }

  function ProceedStep(env: Env, remote: Chain, c: Clone): Clone {
    match c.phase
    case Idle => FetchFirst(env, remote, c)
    case Fetched => Pull(remote, c)
    case Pulled => Poll(env, remote, c)
    case Planned(plan) => Dispatch(env, remote, c, plan)
    case _ => c
  }

  function Apply(env: Env, w: World, a: Action): World
    requires Allowed(w, a)
  {
    match a
    case SupervisorPush(subject, tree) => w.(remote := w.remote + [Commit(Supervisor, subject, tree)])
    case Proceed(c) => w.(clones := w.clones[c := ProceedStep(env, w.remote, w.clones[c])])
    case Execute(c, local, work, result) =>
      w.(clones := w.clones[c := Finish(w.clones[c].(local := local, work := work), w.clones[c].phase.ticket, result)])
    case Publish(c, checked) =>
      w.(clones := w.clones[c := CommitWork(env, w.remote, c, w.clones[c], w.clones[c].phase.ticket, checked)])
    case Push(c, reply) =>
      World(RemoteAfterPush(w.remote, w.clones[c].local, reply),
            w.clones[c := AfterPush(w.remote, w.clones[c], w.clones[c].phase.ticket, reply)])
    case Break(c) => w.(clones := w.clones[c := w.clones[c].(phase := Halted)])
    case Operator(c, local, work, memory) =>
      w.(clones := w.clones[c := w.clones[c].(local := local, work := work, memory := memory, phase := Idle)])
  }

  /** The branch starts with Supervisor commits, and the watchers are idle clones of it. */
  predicate Initial(w: World) {
    && |w.remote| > 0
    && (forall i | 0 <= i < |w.remote| :: w.remote[i].origin == Supervisor)
    && (forall c :: c in w.clones ==>
          w.clones[c].phase == Idle && w.clones[c].tracking <= w.remote && OwnWork(w.clones[c].local, w.remote, c))
  }

  ghost predicate Step(env: Env, w: World, w': World) {
    exists a :: Allowed(w, a) && w' == Apply(env, w, a)
  }

  ghost predicate StepAt(env: Env, ws: seq<World>, i: nat)
    requires i + 1 < |ws|
  {
    Step(env, ws[i], ws[i + 1])
  }

  /** A run: any interleaving of watchers, executors, operators and Supervisor pushes. */
  ghost predicate Run(env: Env, ws: seq<World>) {
    |ws| > 0 && Initial(ws[0]) && forall i: nat | i + 1 < |ws| :: StepAt(env, ws, i)
  }
}
