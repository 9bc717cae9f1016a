# Verified model of the AI support platform's transactional core

The project models five pieces of the repository and proves what they promise together, not function by
function: human approval with roles and audit, the checkpoint watcher and dispatcher, the chunk and embedding
pipeline, the offline evaluation gate, and content-addressed ingestion with grounded citations.

`dafny verify dfyconfig.toml` checks all of it.

## How it is built

**State machines and runs.** Where the source runs in many sessions or clones at once, a module named
`...Machine` gives the shared state (`World`), every small step (`Action`, `Allowed`, `Apply`) and what a run is
(`Run`: any interleaving from an `Initial` world). A module named `...Invariant` (or `IngestTheorems`) shows what every
step keeps; the theorems speak of every world of every run.

- `ApprovalMachine`: sessions run request, get, approve, reject, assign, remove and create-user at PostgreSQL's
  READ COMMITTED. A statement reads what is committed at that moment, row and key locks are held to the end of the
  transaction, writes are buffered until commit. A database fault may hit any step, and a commit may succeed
  without its acknowledgement.
- `DispatchMachine`: watchers in separate clones, one remote branch, a Supervisor who may push at any time, executors
  who may leave anything in a working tree and any commits of the clone's own, operators who may reset a clone. A
  commit is identified with its history, so equal heads are equal chains.
- `EmbeddingMachine` and `IngestMachine`: sessions over one table with a unique key; an inserted row holds its key
  until its transaction or savepoint ends and a second insert of the key waits for that.

**Exact conditions.** Where something a caller might expect fails, the failure is a run from an explicit start
(`ApprovalScenarios`, `DispatchScenarios`) and the condition under which it holds is an equivalence over every run
(`AlreadyAssigned`, `ApprovalExpiry`, `DispatchRepeats`; `ApprovalPaths` builds the continuations that `ApprovalExpiry`
needs: whoever holds a key can be let finish, a user can be created, a role given, while one chosen session stands
still). The dispatch runs start from a note written as text and read by the repository's own parsers.

**What a call does alone.** `ApprovalAlone`, `ApprovalPermissions`, `RolesAlone`, and parts of `IngestTheorems`,
`EmbeddingTheorems` and `DispatchTheorems` say exactly when an undisturbed call succeeds and what it then commits, in
terms of tables, catalog and clock only. `MarkerReading` does the same for the parsers of the control markers. Permission
names, role names, time spans, limits and paths are written out there as the source has them.

**The services themselves.** `DatabaseSessions`, `ApprovalService`, `RoleService`, `WatcherService`,
`EmbeddingService` and `IngestService` are classes whose methods follow the source statement by statement and change
their fields in place. Between two statements they let every other session or clone take any number of its own
steps. Each method keeps `Since(w)`: the present state satisfies the invariant and was reached by steps of the
machine from the state `w` the call started in. So the machine's theorems hold of the methods, and each method's own
`ensures` says what its return value means in the committed state.

**Pure parts and loops.** `Markers` (marker parsers, commit messages), `Chunking`, `EmbeddingBatches`,
`EvaluationLoader`, `EvaluationScorer`, `EvaluationComparison`, `Normalization` and `GroundedAnswers` hold the functions
and loops of their source files. `Text`, `Ordering`, `Sorting` and `Runs` are the string, order, sort and run facts they
share.

**What is abstract.** SHA-256 is a function parameter, assumed to tell inputs apart only where a theorem says so
(`Injective`, `CollisionFree`). `fnmatch`, git's ignore rules, `json.loads` and `str.casefold` are function parameters
with no assumption. The provider of embeddings or answers is an arbitrary function of the call. uuid4 draws are
parameters that are fresh when drawn. Pass rates are exact rationals.

## Results that a reader of one function would not expect

- Two watcher publications are never neighbours on the branch: each stands directly on a Supervisor commit
  (`PublicationsFollowSupervisorCommits`), and between two of them within 200 commits the Supervisor asked for
  something new (`EachPublicationNeedsItsOwnRequest`).
- The 200-subject log limit is exact on every branch: what is published and still asked for is dispatched again exactly
  when that many commits are newer and the record does not hold it back (`ForgottenAtTheLimit`). In a run two clones
  land the same publication 201 commits apart (`WrittenRequestLandsTwice`), so the distance in `PublishedAtMostOnce` is
  the best possible.
- It is publications that happen once, not runs. A rework that ends with publishable work is dispatched again by the
  next poll exactly when it changed nothing (`ReworkRunsAgainExactly`), and a run does the same attempt twice on a branch
  that never grows (`WrittenReworkRunsTwice`). A failed attempt is held back only in the clone whose record says so: a
  second clone runs it (`WrittenReworkFailsElsewhere`).
- A pull can leave a clean clone unclean, when an ignore file it brings uncovers an untracked file; the poll plans and
  the dispatch then stops (`QuietPollStarts`).
- `already_assigned` in an executed approval does not promise the role at commit: in a run from a start with one
  administrator a concurrent removal commits first (`AssignmentStale`). The role is there exactly when no removal
  committed between the insert statement and the commit was left standing (`AssignedUnlessRemoved`, from the history of
  a grant over any run, `GrantHistory`). The audit trail still replays to the role table.
- `get` may report an approval expired that is then executed: a run shows it (`ReportOverturned`). From the state after
  the report the approval is, or can still be, executed or rejected exactly when it already is, or the session holding
  its row lock has read the clock in time and no check still ahead of it is bound to fail (`ExpiredReportIsExact`).
  "Bound to fail" is decided from the catalog, the tool, the row and the users: a requester without the permission can
  still be given a role that has it, and a target user that does not exist can still be created unless its one creation
  failed or there is no default role. Without such a holder no continuation of any kind decides the approval.
- Concurrent embedders only ever wait at their first insert, holding nothing; once a first row is in, the race is
  decided (`OnlyFirstInsertsWait`, `FirstInsertDecides`).
- The default gate's rate and safety-count clauses are implied by the others (`DefaultGateIsExact`), but a new safety
  violation need not be a regression (`NewViolationWithoutRegression`). It is one exactly when the baseline met the case
  (`NewViolationIsRegression`); all of them are exactly when every case that is not critical and in which the
  challenger calls a tool it is not allowed was met by the baseline or was already such a case
  (`NewViolationsAreRegressions`).

Where code and documentation differ the code is followed: `docs/PROJECT_STATE.md:313` says a rework attempt may execute
once, but the code refuses only attempts that are published or that failed in the same clone.

## Model

| member | source | states |
|---|---|---|
| `ApprovalTheorems.RolesRebuiltFromAudit` | app/services/rbac.py:46-63 | in every reachable state, replaying the role events with changed=true in commit order over the starting grants plus the unaudited default grants gives exactly the committed user_roles, and every such event really changed the table when it was replayed |
| `ApprovalTheorems.AuditAgreesWithApprovals` | app/services/approval.py:203-223 | in every reachable state an approval's trail is one approval.requested by its requester followed, exactly when it is decided, by one ending of the matching kind and decider; the decision fields and times fit the status |
| `ApprovalTheorems.ExecutionsCarryTheirGrant` | app/services/approval.py:355-402 | every approval.executed in the log shares its transaction with one rbac.role.assign by the same actor for the row's target, and its result says assigned exactly when that event says changed |
| `ApprovalTheorems.RunEvolves` | app/services/approval.py:327-328 | along a run no approval disappears or changes its requester, tool, arguments or expiry, and a decided approval never changes at all |
| `ApprovalTheorems.LeavesPendingOnce` | app/services/approval.py:310-427 | at most one step of a run takes a given approval out of pending, whatever approvals, rejections and expiries race for it |
| `ApprovalTheorems.ExecutionIsAtomic` | app/services/approval.py:382-402 | the step that makes a pending approval executed commits its row, the grant and both events together and nothing else |
| `ApprovalTheorems.ApprovedEffectsOnlyWithExecuted` | app/services/approval.py:355-402 | a decision call that changes a role does so only in the commit that executes its pending approval |
| `ApprovalTheorems.FaultLeavesNothing` | app/services/approval.py:404-414 | a database fault at any step, and the rollback after it, change no table and leave no lock of the session |
| `ApprovalTheorems.ReportsChangeNothing` | app/services/approval.py:243-274 | no step, fault or end of a get call changes a table, and it never holds a row lock |
| `ApprovalInvariant.ApplyKeeps` | app/services/approval.py:310-505 | every step of every session keeps the agreement of rows, audit log, grants, locks and open transactions |
| `ApprovalInvariant.CommitFrames` | app/repositories/approval.py:43-52 | a commit leaves every other open transaction valid: row locks, key locks and fresh ids keep their writes apart |
| `AuditTrail.InstallKeepsTables` | app/services/audit.py:20-37 | each kind of transaction the services commit keeps every approval's trail matched to its row |
| `AuditTrail.InstallKeepsReplay` | app/repositories/rbac.py:56-94 | each kind of transaction keeps the role table equal to the replay of the trail |
| `AuditTrail.SoundFramed` | app/services/rbac.py:46-61 | a transaction that was right to commit stays right when another one on other rows and grants commits first |
| `ApprovalProgress.NoDeadlock` | app/services/approval.py:317-402 | in every reachable state with an unfinished session some unfinished session can step |
| `ApprovalProgress.WaitChainsEnd` | app/repositories/rbac.py:62-92 | a chain of lock waits has at most three sessions and no cycle |
| `ApprovalProgress.WaitsAreRanked` | app/repositories/approval.py:43-52 | whoever owns a lock another waits for is running and itself waits for a later kind of lock or none |
| `AlreadyAssigned.AssignedUnlessRemoved` | app/tools/rbac.py:24-38 | an execution committed with already_assigned found the role in the table at its insert statement, and the role is there after the commit exactly when every removal committed in between is followed by a new assignment |
| `AlreadyAssigned.GrantHistory` | app/repositories/rbac.py:56-94 | along any run, a role that is in the table is there later exactly when every audited removal in between is followed by an audited assignment |
| `TupleIdentity.TupleIsNeverReused` | app/repositories/rbac.py:81-94 | a role with one and the same row in two states of a run was in the table all the time in between, so a delete that still finds the row of its snapshot removes one that nobody removed or gave again since |
| `ApprovalScenarios.AssignmentStale` | app/tools/rbac.py:24-38 | a run from a start with one administrator commits an execution with already_assigned and leaves the role out of the table |
| `ApprovalAuthority.DecisionsHadAuthority` | app/services/approval.py:317-349 | every approval was requested by a session whose step read its requester's permission for its tool, and expires 15 minutes after that session's clock reading; every decided one was decided by a session that, holding the row lock, read that the very user the row names as decider and its last event as actor may decide, the clock, and for an execution the requester's permission |
| `ApprovalPermissions.DecidersHeldARole` | app/repositories/rbac.py:20-57 | the session that executed, rejected or expired an approval read, in a step under the row lock, a role granted to the very user the last event (and the row) names, and that role had approval:decide in the catalog |
| `ApprovalPermissions.ExecutionsRequesterHeldARole` | app/services/approval.py:149-159 | the session that executed an approval also read, under the row lock, a role granted to the requester that had the tool's permission |
| `ApprovalPermissions.RequestersHeldARole` | app/services/approval.py:186-196 | the session that requested an approval read a role granted to its requester that had the tool's permission |
| `ApprovalAuthority.ExpiredReportBindsLaterReadings` | app/services/approval.py:255-260 | after get reported expired, only a session that read its clock in an earlier state can still have executed or rejected the approval |
| `ApprovalExpiry.ExpiredReportIsExact` | app/services/approval.py:255-267 | after get reported expired, some continuation has the approval executed or rejected exactly when it is already, or the holder of its row lock is past a clock reading in time and can still pass the checks ahead of it |
| `ApprovalExpiry.OverdueIsExact` | app/services/approval.py:310-402 | the same for any overdue approval in any good state, reported or not: the condition on the lock holder is necessary in every continuation and sufficient by a continuation that drives it |
| `ApprovalScenarios.ReportOverturned` | app/services/approval.py:255-267 | a run from a start with one administrator in which get reports an approval expired and the next step executes it |
| `ApprovalAlone.ApproveAlone` | app/services/approval.py:310-427 | undisturbed, approve ends exactly as its inputs are judged in the source's order of checks: executed with the grant and both events, or the overdue row committed as expired, or nothing changed and the first check's error |
| `ApprovalAlone.RejectAlone` | app/services/approval.py:429-505 | undisturbed, reject ends exactly as its inputs are judged: rejected with its event, or the overdue row committed as expired, or nothing changed and the first check's error |
| `ApprovalAlone.AloneIsARun` | app/services/approval.py:310-427 | with no lock held elsewhere those steps are a run of the machine |
| `ApprovalPermissions.ApproveExecutesExactly` | app/services/approval.py:310-427 | undisturbed, approve executes exactly when a role of the approver has approval:decide, the row is pending and not overdue, its tool is still registered as needing approval with the role executor and valid arguments, a role of the requester has its permission and target user and support_agent exist; it then commits exactly the row, the role and both events, and otherwise ends with an error and gives no role |
| `ApprovalPermissions.RejectRejectsExactly` | app/services/approval.py:429-505 | undisturbed, reject rejects exactly when a role of the approver has approval:decide and the row is pending, not overdue and its tool still usable; it then commits exactly the row and its event |
| `ApprovalPermissions.UndecidingIsRefused` | app/services/approval.py:139-147 | undisturbed, a decision by a user none of whose roles has approval:decide ends with permission denied and leaves the tables as they were |
| `ApprovalPermissions.RequestsExactly` | app/services/approval.py:161-241 | undisturbed, request_action commits the pending row, expiring 900,000,000 microseconds after the clock, and its event exactly when the tool is approvable with these arguments and a role of the caller has its permission; otherwise it changes nothing and ends with the lookup's error or tool permission denied |
| `ApprovalPermissions.LookupExactly` | app/services/approval.py:168-186 | each unusable tool request has its own error: not registered, not needing approval or without executor, invalid arguments; every other is usable |
| `ApprovalRuns.ReachesKeeps` | app/services/approval.py:310-505 | whatever the service methods reach satisfies the invariant and only moves approvals forward |
| `ApprovalService.ApprovalService.GetForUpdate` | app/repositories/approval.py:43-52 | returns the row as committed while the lock is held, after waiting, or the not-found or database error |
| `ApprovalService.ApprovalService.ExpireLocked` | app/services/approval.py:276-297 | always raises: a state conflict once the row is committed as expired at the clock reading with its event last in the log, or the database error of a commit that failed |
| `ApprovalService.ApprovalService.RequireDue` | app/services/approval.py:327-344 | passes only with a pending row, a usable definition and a clock before expiry |
| `ApprovalService.ApprovalService.FindTarget` | app/services/approval.py:351-380 | the grant of the row's target user, or a state conflict exactly for a missing executor, user or role and a tool error exactly for another executor or invalid arguments, when no database error comes first |
| `ApprovalService.ApprovalService.InsertGrant` | app/tools/rbac.py:24-38 | buffers the executed row with exactly the role event and the executed event |
| `ApprovalService.ApprovalService.Approve` | app/services/approval.py:310-427 | the snapshot it returns is the committed executed row decided by this approver, its two events last in the log; every run of it is a run of the machine |
| `ApprovalService.ApprovalService.Reject` | app/services/approval.py:429-505 | the snapshot it returns is the committed rejected row decided by this approver; every run of it is a run of the machine |
| `ApprovalService.ApprovalService.RequestAction` | app/services/approval.py:161-241 | the snapshot it returns is the committed pending row with the caller's tool and arguments under the drawn id, expiring 15 minutes after a clock reading between start and end of the call, its event last in the log; each unusable request gets its own error |
| `ApprovalService.ApprovalService.Get` | app/services/approval.py:243-274 | reports the row as committed in some state of the call, with the effective status at the clock of a later state, or not found or the database error |
| `RoleService.RBACService.AssignRole` | app/services/rbac.py:65-110 | a success leaves its event last in the log, and the role granted if it says changed |
| `RoleService.RBACService.RemoveRole` | app/services/rbac.py:112-149 | a success leaves its event last in the log, and the role gone if it says changed |
| `RoleService.RBACService.DeleteSeen` | app/repositories/rbac.py:81-94 | the delete reports and buffers a change exactly when the tuple its snapshot saw is still the committed one once the key is free |
| `RoleService.RBACService.CreateUser` | app/services/user.py:50-62 | a success commits the user together with the default grant, without an audit event |
| `RolesAlone.AssignsExactly` | app/services/rbac.py:65-110 | undisturbed, assign_role refuses an unknown user or role, and otherwise gives the role once, reports whether it was new and commits its event |
| `RolesAlone.RemovesExactly` | app/services/rbac.py:112-149 | undisturbed, remove_role refuses an unknown user or role, and otherwise takes the role away, reports whether it was there and commits its event |
| `RolesAlone.CreatesExactly` | app/services/user.py:50-62 | undisturbed, create_user adds the user with the role "user" and no event, unless that role is missing |
| `DatabaseSessions.Database.CommitWrites` | app/services/approval.py:402 | on success the whole buffer is committed; a failed commit leaves an open question the machine covers both ways |
| `Markers.ApprovalReadsBack` | scripts/codex_dispatch.py:407-444 | an approval marker written among other lines is read back as the checkpoint that was written |
| `Markers.WrittenNoteReadsBack` | scripts/codex_dispatch.py:407-663 | the three control lines of a note, with or without a rework, are read back together as what was written |
| `Markers.MarkerReadsBack` | scripts/codex_dispatch.py:395-436 | a marker that is the only candidate for its key reads back as its trimmed body |
| `MarkerReading.MarkerReadExactly` | scripts/codex_dispatch.py:395-436 | in any note, a marker is read exactly when one line and no other opens it, with its key, and closes it; what is read is the enclosed text without the white space around it, and any other number of such lines is refused |
| `MarkerReading.SecondMarkerIsRefused` | scripts/codex_dispatch.py:407-421 | a second line that opens the approval, allowlist or rework marker makes its parser refuse the note |
| `MarkerReading.ApprovalReadExactly` | scripts/codex_dispatch.py:407-444 | an approval is read exactly from the one approval marker of a note that holds a checkpoint |
| `MarkerReading.CheckpointReadExactly` | scripts/codex_dispatch.py:90-97 | a checkpoint is read exactly from its name in any case with any white space around it |
| `MarkerReading.ReworkReadExactly` | scripts/codex_dispatch.py:514-586 | no rework is read exactly when no line opens its marker; one is read exactly from the one marker holding an object with just a write checkpoint and a positive attempt |
| `MarkerReading.AllowReadExactly` | scripts/codex_dispatch.py:589-664 | an allowlist is read exactly from the one marker holding a non-empty array of distinct relative patterns that do not lead upwards and do not stand for everything |
| `MarkerReading.ParentIsComponent` | scripts/codex_dispatch.py:646-654 | the check for ".." finds exactly the paths of which a part between slashes is ".." |
| `MarkerReading.OwedExactly` | scripts/codex_watch.py:46-49 | what a note makes a watcher owe: CP2 after CP1, CP3 after CP2, plain or as the rework that targets it, and nothing else |
| `Markers.ProseIsFree` | scripts/codex_dispatch.py:395-404 | adding or removing any line that is no marker candidate leaves all three controls as they were |
| `Markers.MessagesDistinguishAttempts` | scripts/codex_watch.py:52-63 | commit subjects tell checkpoints, rework attempts and first publications apart |
| `Markers.CheckAllowList` | scripts/codex_dispatch.py:641-658 | the loop accepts exactly lists of safe patterns and returns them unchanged, or the first pattern's error |
| `Markers.OwedIsAuthorised` | scripts/codex_watch.py:46-49 | what a note asks for is the write checkpoint whose required approval is exactly the approved one |
| `DispatchInvariant.ApplyKeeps` | scripts/codex_watch.py:273-403 | every step of every watcher, executor, operator and the Supervisor keeps the branch and clone invariant |
| `DispatchInvariant.Sandwich` | scripts/codex_dispatch.py:1164-1177 | a local head equal to the freshly fetched head is the head whose log was checked |
| `DispatchInvariant.CheckedWorkIsAuthorised` | scripts/codex_dispatch.py:858-914 | whatever the executor did, work that passes the checks makes a commit authorised by the note at the head it was compared with |
| `DispatchInvariant.PushTakesAuthorisedCommit` | scripts/codex_dispatch.py:954-962 | a push is taken only while the remote is still the authorising head, and adds exactly the one commit |
| `DispatchInvariant.ForeignCommitKeepsFork` | scripts/codex_watch.py:147-155 | commits pushed by others never turn a diverged clone into a fast-forwardable one |
| `DispatchTheorems.PublishedAtMostOnce` | scripts/codex_watch.py:66-90 | in every reachable branch a publication's subject is on none of the 200 commits before it |
| `DispatchTheorems.PublicationsAreKeyed` | scripts/codex_watch.py:327-379 | every publication publishes one checkpoint and attempt, and no two within 200 commits publish the same |
| `DispatchTheorems.PublicationsFollowSupervisorCommits` | scripts/codex_dispatch.py:858-887 | every publication is a direct child of a Supervisor commit whose note authorises it |
| `DispatchTheorems.EachPublicationNeedsItsOwnRequest` | scripts/codex_watch.py:305-379 | between two publications within 200 commits the Supervisor committed a note that asks for something else |
| `DispatchTheorems.MarkersAreTheSupervisors` | scripts/codex_dispatch.py:804-843 | at every place of the branch the parsed approval, allowlist and rework are those of the newest Supervisor commit |
| `DispatchTheorems.RunsAreApproved` | scripts/codex_dispatch.py:483-511 | an executor runs checkpoint k only while the newest Supervisor-authored note of its head approves exactly checkpoint k - 1 |
| `DispatchTheorems.StartIsGated` | scripts/codex_dispatch.py:1126-1177 | on every branch a run reaches, a start against the fetched head, whatever the checkpoint, clone, record and force flag, succeeds exactly when the newest Supervisor commit's note approves the checkpoint before it or a later one, the record does not say it is done, and for a write checkpoint that note's allowlist parses, the working tree is clean and the local head is the remote one |
| `DispatchTheorems.PublishedPathsAreAllowed` | scripts/codex_dispatch.py:765-801 | every path a publication changes is unprotected and matches the allowlist of its parent's note, for any executor edit |
| `DispatchTheorems.ProtectedFilesAreTheSupervisors` | scripts/codex_dispatch.py:47-59 | a protected file is always what the newest Supervisor commit made it |
| `DispatchTheorems.PublicationsKeepAway` | scripts/codex_dispatch.py:47-59 | in every run no publication adds, changes or removes .gitignore, AGENTS.md, docs/PROJECT_STATE.md, docs/codex-dispatcher.md, docs/issues/README.md, scripts/codex_dispatch.py or anything under .git/, .github/ or .codex-dispatch/ |
| `DispatchTheorems.PullTakesTheHead` | scripts/codex_watch.py:130-155 | a fast-forward leaves exactly the new head's files and the clone's own untracked ones |
| `DispatchTheorems.CommitTakesAllWork` | scripts/codex_dispatch.py:904-946 | the commit differs from its base exactly on the changed paths, holds the executor's version of each, and leaves a clean tree |
| `DispatchTheorems.BranchOnlyGrows` | scripts/codex_dispatch.py:954-962 | along a run the remote branch is only appended to |
| `DispatchTheorems.StaleWorkIsRefused` | scripts/codex_dispatch.py:868-887 | once the branch left a run's head, no push of its work is taken and the watcher stops |
| `DispatchTheorems.PushLands` | scripts/codex_dispatch.py:954-964 | an acknowledged push puts exactly the clone's own commit on top of a Supervisor commit |
| `DispatchTheorems.PollDecidesExactly` | scripts/codex_watch.py:305-379 | a poll dispatches if and only if the note asks for a publication that is not in the log and that the local record does not hold back, and then exactly that one |
| `DispatchRepeats.ForgottenAtTheLimit` | scripts/codex_watch.py:66-90 | on any branch whose note still asks for what commit i, the newest with its subject, published: a poll dispatches it again exactly when the record does not hold it back and at least 200 commits are newer, and passes it over before that |
| `DispatchScenarios.PublicationLandsTwice` | scripts/codex_watch.py:66-90 | from any start with two ready clones and work they may publish, a run in which both land the same publication, 201 commits apart |
| `DispatchScenarios.WrittenRequestLandsTwice` | scripts/codex_watch.py:66-90 | such a run from an explicit start whose note is written as text |
| `DispatchRepeats.ReworkRunsAgainExactly` | scripts/codex_dispatch.py:908-909 | in every run, a rework that ended with publishable work is recorded as succeeded, and the next poll of the branch it leaves dispatches the same attempt again exactly when the run changed nothing, and nothing otherwise |
| `DispatchScenarios.ReworkRunsTwice` | scripts/codex_watch.py:325-365 | from any start with a clone ready for a rework, a run in which it runs the same forced ticket twice while the branch never grows |
| `DispatchScenarios.WrittenReworkRunsTwice` | scripts/codex_watch.py:325-365 | such a run from an explicit start whose note is written as text |
| `DispatchScenarios.FailedAttemptRunsElsewhere` | scripts/codex_watch.py:348-362 | from any start with two ready clones, a run in which one fails a rework attempt and would stop at its next poll, and the other runs the same ticket |
| `DispatchScenarios.WrittenReworkFailsElsewhere` | scripts/codex_watch.py:348-362 | such a run from an explicit start whose note is written as text |
| `DispatchRepeats.WrittenApprovalGates` | scripts/codex_dispatch.py:407-511 | with the repository's own parsers, an approval marker the Supervisor wrote among other lines is what every start is held to, on every branch a run reaches and whatever was published on top of it |
| `DispatchRepeats.TwoApprovalsStop` | scripts/codex_dispatch.py:407-421 | with the repository's own parsers, a newest Supervisor note with a second approval line makes every start and every poll fail, on every branch a run reaches |
| `DispatchTheorems.QuietPollStarts` | scripts/codex_watch.py:292-395 | an undisturbed idle clean clone plans what is owed, and starts it exactly when it is still clean after the pull |
| `DispatchTheorems.QuietRunPublishes` | scripts/codex_dispatch.py:846-964 | an undisturbed run with an allowed change lands it whole on the branch and leaves the clone clean and idle |
| `DispatchRuns.ReachesKeeps` | scripts/codex_watch.py:273-403 | whatever the watcher methods reach satisfies the invariant and only extends the branch |
| `WatcherService.Watcher.FastForward` | scripts/codex_watch.py:130-155 | ends pulled to the remote head, or stopped on a dirty tree, a git failure or diverged histories |
| `WatcherService.Watcher.NextPlan` | scripts/codex_watch.py:305-379 | plans exactly what the note owes when that is not on the newest 200 commits and the record does not hold it back, forced exactly for a rework; it is silent about what is published and an error about what is held back |
| `WatcherService.Watcher.CheckStart` | scripts/codex_dispatch.py:1126-1177 | hands out a ticket exactly when the fetched note lets the plan start in this clone, with the head, note and, for a write checkpoint, allowlist it read |
| `WatcherService.Watcher.CheckMarkers` | scripts/codex_dispatch.py:804-843 | succeeds exactly when all three markers parse in both notes and are equal |
| `WatcherService.Watcher.CheckPublication` | scripts/codex_dispatch.py:868-914 | passes exactly when remote and local head are still the ticket's, the note in the working tree parses to the same markers and every changed path is allowed, and then yields exactly the changed paths |
| `WatcherService.Watcher.PushCommit` | scripts/codex_dispatch.py:954-964 | reports a publication only when the branch grew by the clone's own commit; otherwise the watcher stops |
| `WatcherService.Watcher.RunOnce` | scripts/codex_watch.py:273-403 | when it reports a publication the branch ends with this clone's commit for the plan on a Supervisor commit, nothing is left in the working tree and the record says succeeded; every run of it is a run of the protocol |
| `WatcherService.Watcher.Watch` | scripts/codex_watch.py:491-506 | the polling loop stops at the first error, and the branch has grown by at least one commit per reported publication |
| `Chunking.SplitIntoChunks` | app/services/chunking.py:48-94 | rejects exactly the bad arguments, otherwise terminates with exactly the chunks of the closed form |
| `Chunking.CountMeaning` | app/services/chunking.py:72-92 | chunk i + 1 exists exactly when chunk i does not reach the end, for the count 1 or 1 + ceil((n - size)/(size - overlap)) |
| `Chunking.SplitShape` | app/services/chunking.py:72-92 | every chunk but the last is full, the last ends the content, each later one adds at least one new character |
| `Chunking.SplitRoundTrip` | app/services/chunking.py:67-94 | the first chunk followed by every later one without its overlap is the content |
| `Chunking.InsideMeaning` | app/services/chunking.py:73-75 | a passage inside a chunk's bounds is a substring of that chunk's text |
| `Chunking.CoverageIsExact` | app/services/chunking.py:67-92 | every passage of a given length lies whole in some chunk if and only if it is at most overlap + 1 long or the content is one chunk |
| `EmbeddingBatches.Embed` | app/integrations/embeddings.py:62-158 | accepts a response exactly when its indexes are a permutation of the positions and its vectors and usage are good, in any arrival order, and gives each text, component by component, the vector sent under its index |
| `EmbeddingBatches.AcceptableMeans` | app/integrations/embeddings.py:79-150 | a response is good exactly when each position is named once, each embedding is a finite vector of the right length and the token count is a non-negative integer |
| `EmbeddingBatches.StoredVectorIsTheIndexedOne` | app/integrations/embeddings.py:93-129 | the vector at a place is that of the one item sent with that index |
| `Sorting.SortedToPositions` | app/integrations/embeddings.py:93-104 | sorting puts every item at the position of its key exactly when the keys are a permutation of the positions |
| `EmbeddingBatches.EmbedChunks` | app/services/embedding.py:139-171 | the calls are the consecutive batches up to the first bad answer; with none, all vectors in order and the sum of tokens |
| `EmbeddingBatches.EveryChunkGetsItsVector` | app/services/embedding.py:222-250 | every chunk travels in exactly one call, k = i / batch size, whose texts are the contents of its chunks, and gets that call's vector number i mod batch size |
| `EmbeddingBatches.AnsweredMeans` | app/services/embedding.py:146-171 | an answer is taken exactly when it has one vector of the right length for each text of its call |
| `EmbeddingBatches.BatchesPartition` | app/services/embedding.py:146-161 | ceil(n/b) batches of 1 to b chunks, all but the last full, concatenate back to the chunks |
| `EmbeddingInvariant.ClassifyComparesLists` | app/services/embedding.py:96-137 | classification is complete exactly when the stored list of index, hash and configuration equals the expected list, missing exactly when it is empty |
| `EmbeddingInvariant.StateIsNothingOrAll` | app/services/embedding.py:96-137 | on a good table classification says missing exactly for an empty set and complete otherwise, never inconsistent |
| `EmbeddingInvariant.ApplyKeeps` | app/services/embedding.py:344-524 | every step of every embedding call keeps the table, event and lock invariant |
| `EmbeddingInvariant.CommitIsFirst` | app/models/knowledge_chunk.py:26-35 | rows about to be committed are the first of their document and configuration |
| `EmbeddingTheorems.StoredSetsAreWhole` | app/services/embedding.py:440-460 | in every reachable state each document and configuration has no chunks or exactly the full split |
| `EmbeddingTheorems.StoredChunksRebuildTheDocument` | app/services/embedding.py:361-373 | what list_states reads for a stored set reassembles to the document |
| `EmbeddingTheorems.NothingIsInconsistent` | app/services/embedding.py:404-438 | no read in any reachable state finds an inconsistent set |
| `EmbeddingTheorems.NoCallConflicts` | app/services/embedding.py:393-394 | no call ever ends with a state conflict |
| `EmbeddingTheorems.LostRaceResolvesToComplete` | app/services/embedding.py:470-495 | a call that lost the unique-key race always goes on to audit the complete set as unchanged |
| `EmbeddingTheorems.OneChangedEventPerSet` | app/services/embedding.py:451-460 | exactly one event says changed for a stored set, none for one not stored |
| `EmbeddingTheorems.SuccessMeansStored` | app/services/embedding.py:462-468 | a successful call's set is stored in full and counted |
| `EmbeddingTheorems.StoredSetsStay` | app/repositories/embedding.py:89-113 | a stored set is never added to, replaced or removed |
| `EmbeddingTheorems.ProviderWaitHoldsNothing` | app/services/embedding.py:381-399 | while the provider is called the session holds no row lock |
| `EmbeddingTheorems.OnlyFirstInsertsWait` | app/repositories/embedding.py:111-112 | only a first insert waits, so a waiting session holds nothing |
| `EmbeddingTheorems.WaitersWaitForRunners` | app/repositories/embedding.py:111-112 | whoever a session waits for can step at once |
| `EmbeddingTheorems.FirstInsertDecides` | app/services/embedding.py:447-449 | after its first row a call neither waits nor collides |
| `EmbeddingTheorems.AnsweredAloneStores` | app/services/embedding.py:440-468 | with an answer in hand, nothing stored and no other lock in the way, a call stores exactly its chunks in order, row i with chunk i and vector i, and reports them as changed |
| `EmbeddingTheorems.StartsExactly` | app/services/embedding.py:344-399 | undisturbed, embed_document refuses an unknown document and one that cannot be split with the split's error, reports a stored set as unchanged without calling the provider, and calls it for exactly the document's chunks otherwise |
| `EmbeddingService.EmbeddingService.ClassifyExisting` | app/services/embedding.py:96-137 | the comparison loop computes the classification |
| `EmbeddingService.EmbeddingService.Reconcile` | app/services/embedding.py:313-342 | complete chunks are committed as an unchanged event with the tokens used so far, missing ones lead on |
| `EmbeddingService.EmbeddingService.EmbedDocument` | app/services/embedding.py:344-524 | a success has the full set stored and counted, row i with the i-th piece of the document and its digest, its own event last in the log, and if changed every stored vector is the provider's own for the stored text, at its place in its call; it never ends in conflict |
| `EvaluationLoader.LoadCases` | app/evaluation/loader.py:179-211 | accepts exactly non-empty files of valid records with unique ids and every tag minimum met |
| `EvaluationLoader.LoadResults` | app/evaluation/loader.py:214-254 | accepts exactly results that answer each case once with its own kind of result |
| `EvaluationLoader.LoadedAlwaysEvaluates` | app/evaluation/scorer.py:163-178 | loaded cases and results always evaluate, one result per case |
| `EvaluationScorer.ReasonsExplain` | app/evaluation/scorer.py:35-154 | a case has no failure reason exactly when its demands are met, and the unauthorized reason exactly when such a tool was called |
| `EvaluationScorer.ScoreRag` | app/evaluation/scorer.py:35-95 | scores a rag case as passed exactly when it meets its demands, unsafe as defined, with the flags counted |
| `EvaluationScorer.ScoreTool` | app/evaluation/scorer.py:98-154 | scores a tool case likewise |
| `EvaluationScorer.ScoreAll` | app/evaluation/scorer.py:194-242 | the loop's counters are the fold over the sorted ids, or the first type mismatch |
| `EvaluationScorer.CounterIsSize` | app/evaluation/scorer.py:180-242 | a counter of the loop is the number of cases with its property |
| `EvaluationScorer.Evaluate` | app/evaluation/scorer.py:157-302 | the counting loops give the report defined by sizes of sets of cases, or the first error; each of its seven rates times its base is the number of cases that have the property, and is one where the base is empty |
| `EvaluationScorer.ContainsMeans` | app/evaluation/scorer.py:71-79 | a fragment is found exactly when the text is something, the fragment and something |
| `EvaluationScorer.ReportSplits` | app/evaluation/scorer.py:244-302 | totals and passes split exactly into rag and tool, failures are total minus passed |
| `EvaluationScorer.MetCountsEverywhere` | app/evaluation/scorer.py:197-241 | a passed case counts in every metric of its kind, and no metric counts outside its base |
| `EvaluationScorer.PerfectCandidate` | app/evaluation/scorer.py:244-302 | a candidate that passes every case has every rate at one, no violation and no failure |
| `EvaluationScorer.OrderDoesNotMatter` | app/evaluation/scorer.py:167-194 | the report does not depend on the order of results or cases |
| `EvaluationComparison.FailedAreTheOthers` | app/evaluation/comparison.py:19-20 | the failed ids of a report are exactly the cases not met, total minus passed of them |
| `EvaluationComparison.SafetyRecomputed` | app/evaluation/comparison.py:23-33 | the safety set recomputed from failure reasons is exactly the set the scorer counted |
| `EvaluationComparison.DeltasAreCounts` | app/evaluation/comparison.py:36-92 | the passed delta is improved minus regressed, the safety delta new minus resolved |
| `EvaluationComparison.CompareCandidates` | app/evaluation/comparison.py:95-174 | reports, changed sets and gate reasons are exactly what changed between the two candidates' sheets; its deltas are the numbers improved minus regressed and new minus resolved, and each gate reason is there exactly when its inequality on the reports' counts holds, the rate clause as passed lost > allowed drop times total |
| `EvaluationComparison.DefaultGateIsExact` | app/evaluation/comparison.py:123-143 | under the default policy the gate passes exactly with thresholds met, no regression and no new safety violation |
| `EvaluationComparison.DefaultGateChains` | app/evaluation/comparison.py:123-143 | passing the default gate is transitive along candidates on one suite |
| `EvaluationComparison.DefaultGateAgainstItself` | app/evaluation/comparison.py:123-143 | against itself a candidate passes exactly when it meets the thresholds |
| `EvaluationComparison.NewViolationIsRegression` | app/evaluation/comparison.py:95-143 | a new safety violation is a regression exactly when the baseline met the case; otherwise it is a tool case that is not critical in which only the challenger calls a tool it is not allowed |
| `EvaluationComparison.NewViolationsAreRegressions` | app/evaluation/comparison.py:95-143 | all new safety violations are regressions exactly when every case that is not critical and has an unauthorized call of the challenger was met by the baseline or had one there already |
| `EvaluationComparison.ListedViolationsAreRegressions` | app/evaluation/comparison.py:95-174 | the same of the lists in the comparison of any two evaluated candidates |
| `EvaluationComparison.NewViolationWithoutRegression` | app/evaluation/scorer.py:109-139 | a one-case suite in which the condition fails: a new safety violation that is no regression |
| `Normalization.NormalizeKeepsText` | app/services/knowledge.py:30-42 | normalized content is the whole content with every line end a line feed, without the white space around it and with nothing else gone; it is refused exactly when it is all white space |
| `Normalization.SpelledTextIsKept` | app/services/knowledge.py:30-42 | in particular of any of the three spellings of a text the text itself is kept, without the white space around it |
| `Normalization.NormalizeIsIdempotent` | app/services/knowledge.py:30-42 | normalized content has no carriage return and normalizes to itself |
| `Normalization.SpellingDoesNotMatter` | app/services/knowledge.py:30-35 | LF, CRLF and CR spellings of a text normalize to the same content |
| `IngestTheorems.ApplyKeeps` | app/services/knowledge.py:57-151 | every step of every ingest call keeps unique keys, ids, events and locks |
| `IngestTheorems.OneDocumentPerKey` | app/models/knowledge_document.py:12-18 | at most one document per source name and content hash |
| `IngestTheorems.SuccessesAgree` | app/services/knowledge.py:71-102 | two successful calls return the same committed document exactly when their source names and the hashes of their normalized contents are equal |
| `IngestTheorems.SuccessHoldsTheContent` | app/services/knowledge.py:63-68 | the returned document holds the caller's whole content, line ends unified and white space around it gone, when the hash has no collision |
| `IngestTheorems.OneChangedEventPerDocument` | app/services/knowledge.py:104-118 | exactly one committed event says changed for a document |
| `IngestTheorems.IngestsExactly` | app/services/knowledge.py:57-151 | undisturbed, ingest refuses white space, returns the document with the source name and hash of the trimmed content as unchanged, and otherwise stores one with the caller's fields and the trimmed content as changed, with the matching event |
| `IngestTheorems.LostRaceFindsTheWinner` | app/services/knowledge.py:92-102 | after the savepoint collision the second lookup always finds the winner |
| `IngestTheorems.WaitersWaitForCommits` | app/services/knowledge.py:81-90 | whoever an insert waits for has only its commit left |
| `IngestService.KnowledgeService.Ingest` | app/services/knowledge.py:57-151 | a success returns a committed document with the caller's source name and the hash of the caller's trimmed content, and that content where the hash tells contents apart; a changed one has the caller's fields and the drawn id; its event is last in the log; content is refused exactly when it is all white space |
| `GroundedAnswers.SourceIdsCountFromOne` | app/services/rag.py:66-73 | the id of place i is S followed by the digits of i + 1 |
| `GroundedAnswers.SourceIdsAreInjective` | app/services/rag.py:66-73 | S1, S2, ... are different for different places |
| `GroundedAnswers.SourceMapHolds` | app/services/rag.py:66-73 | the source map holds exactly the retrieved rows under the ids of their places |
| `GroundedAnswers.SourceMapKeepsAll` | app/services/rag.py:66-73 | no retrieved row is lost to a shared id |
| `GroundedAnswers.Deduplicate` | app/services/rag.py:118-120 | each cited id once, in the order of first occurrence |
| `GroundedAnswers.ValidateReply` | app/services/rag.py:75-141 | a reply is accepted exactly when it is well-formed, cites only ids handed out, and cites exactly when it answers |
| `GroundedAnswers.AnswerQuestion` | app/services/rag.py:193-337 | with nothing retrieved it takes the branch that leaves the provider alone, which its out-parameter `called` records; otherwise the provider is handed every row's content under the id of its place; a grounded answer is the reply's trimmed text and cites at least one source, each once in first order, repeating all nine fields of the row its id names; any other answer cites none; model and token counts are the reply's |

## Left out

- FastAPI routes, middleware, authentication and password hashing, metrics and logging: wiring and library calls.
- Prompts, OpenAI clients, retrieval ranking and SQL text: providers and queries are functions or table reads.
- Tables other than those named: role and permission definitions are a fixed catalog, because no service changes them.
- User creation beyond the default grant: the unique e-mail key and credentials are not part of the model.
- ApprovalService.ApprovalService.FindTarget: an approval executor other than the role grant is modelled as one that changes nothing and fails the result check, because the registry of the repository has only the role grant.
- Ill-typed pending arguments: an argument record validates to a target user or does not validate; other argument models are not part of the model.
- Lock waits end when the lock is free or with a database error after any number of attempts, because the source sets no lock timeout.
- One call per session: each service call runs in its own session, as each request does.
- The audit columns occurred_at, request context and metadata that no property uses; order in the log is commit order.
- Real git: the index, hooks, refs of other branches and file modes. One issue and one branch, nothing staged beforehand, a branch that is never rewound, one watcher process per clone (its lock file), and executors and operators who bring no commits of other clones that are not on the branch.
- DispatchTheorems.StartIsGated: the check that a stored executor session belongs to the branch, and the branch checks made before dispatch, are not part of the model.
- Pushes by hand or by the dispatcher's own command line count as Supervisor pushes, because nothing tells them apart on the branch.
- Markers: the JSON text of markers is decoded by a parameter; only what the parsers do with the decoded value is modelled.
- Text.Upper: upper-casing is modelled on ASCII letters, the only ones that can make a checkpoint name.
- EmbeddingBatches.Embed: an index that is equal to an integer without being one (true, 1.0) is not modelled, and vector components are rationals, not floats.
- EmbeddingMachine inserts the rows of one flush in index order, the order in which they were added to the session.
- EvaluationLoader.LoadCases: file size, path and JSON line checks come before it; which of several errors is reported first is stated only as far as the loop decides it.
- Prompt fingerprints, schema field limits and the prompt-change flags of a comparison: constant or single-field checks.
- GroundedAnswers.AnswerQuestion: retrieval itself and whether the best-effort audit event is stored; the event it would store is returned.
- Release verification, configuration parsing, fixtures and scripts other than the watcher and dispatcher: single-branch checks or constant data.
