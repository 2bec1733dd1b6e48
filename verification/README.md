# Verified model of the TaskRun control plane and the Core Host

This project models four parts of the system in Dafny 4.11 and proves what they promise over all runs.
`dafny verify dfyconfig.toml` checks everything.

**The TaskRun control plane** (`adapters/persistence-sqlite/src/store.ts`). `TaskRun.dfy` holds the rows of one run
and a specification function `Apply` with one case per transaction; `TaskStore.dfy` has the class that runs the
transactions statement by statement and is proved against it. The specification leaves out what a reachable state
makes superfluous: the unaudited "superseded" update, the scan for the lowest ordinal, the loops over selected rows.
`RunLaws.dfy` says what each transaction does to the rows, column by column, and who wins when two callers expect
the same status. On top stand `Leases.dfy` (continuation leases), `CrashRecovery.dfy` (start-up recovery and
automatic continuation), `Sessions.dfy` (one running run per session), `EventFeed.dfy` (consumer cursors),
`Authority.dfy` (external-action approvals), `Evidence.dfy` (checks and the gate), `SessionInbox.dfy` (manual order,
idempotent profile mutations) and `PlanGraph.dfy` (plan cycles).

**The Core Host** (`apps/core-service/src/host.ts` and its session). `HostProtocol.dfy` is a transition system over
the two durable cells (the `current` link; the state file with the activation record and the crash list), the
volatile state of one Host process, and a crash possible between any two steps. `HostSafety.dfy` proves its
invariant, when verdicts are true and when Generations are exclusive; `HostUsurpation.dfy` what follows wherever
that condition fails; `HostBudget.dfy` the restart budget; `HostReports.dfy` which request a result is about;
`HostGates.dfy` what an activation does only after an await succeeded, and what a stopped Host no longer does;
`HostProgress.dfy` that good answers commit, restart and start. `HostExamples.dfy` has concrete runs from a fresh
installation outside the guarantees, and `GenerationSession.dfy` is the exit latch and message acceptance of one
child.

**Batch commit** (`commit_batch` of the workspace helper): `BatchCommit.dfy`. **Transcript merge**:
`Transcript.dfy`.

## What is assumed

- Each store method is one atomic transaction; a guard that fails and an error both leave nothing written.
  `now()` does not go back. Ids are fresh numbers, hashes are the values themselves, JSON and SQL text are not
  modelled. Rows are grouped by run, because every statement here selects by run id.
- `updateContinuation` is used only on a queued or leased row, with its owner, to a terminal status
  (`CloseContinuation`); `updateOperation` never rewrites a terminal operation. Both are guards of the model.
- A Host step is the code between two awaits, and a state write takes effect when it is issued or not at all.
  READY of a start or restart and `allowUnexpectedExitRecovery` are one step. The heartbeat deadline is an `Exit`
  event. Only the Host changes the link, and the release root is managed.
- In `BatchCommit.dfy` temporary and backup names are fresh, the operating system's answers are an input
  (`Answers`), and a rename or sync either fails or happens; the
  unlinks of the `finally` clause do not fail, although the helper excuses only a missing file.

## What turned out not to hold

- A candidate that dies between its durable committed record and its settlement is rolled back under that record
  (host.ts:382), so the next start reports a success that was undone: `HostExamples.CommittedThenRolledBack`. The
  record disagrees with the link exactly when a candidate died there (`exposed`) and the rollback has changed the
  link since (`relinked`): `HostSafety.VerdictsAreTrue`.
- A Host start reports success of an activation whose target is the release it has started, whatever was verified.
  For a request nothing was drained for yet that is a restart of the linked release: `HostGates.RecoveredTarget`,
  `HostExamples.UnverifiedSuccessReported`. Nothing else brings a request past an await that did not succeed:
  `HostGates.NothingPassesAGate`.
- When the committed record cannot be written, memory says committed and the file says starting. Rollback links the
  previous release, and its Generation, while being killed for a stale fence, can ask again and is told from memory
  that the activation succeeded: `HostExamples.UnwrittenSuccessReplayed`. A reported success is untrue exactly when
  a rollback had changed the link under its record: `HostSafety.VerdictsAreTrue`.
- A restarted Generation that announces a stale fence, or whose READY is late, can still have an ACTIVATE accepted
  while it is being killed. Exclusivity holds in every lifetime in which that does not happen (`usurped`):
  `HostSafety.GenerationsAreExclusive`. Wherever it happens for the release that session runs, two Generations can
  come to live at once: `HostUsurpation.UsurpationSplits`; a run from a fresh installation is
  `HostExamples.RejectedGenerationIntrudes`. From every such state the durable record can also come to disagree with
  the link (`disturbed`): `HostUsurpation.UsurpationMisleads`, and stay so: `HostExamples.UsurpedRecordIsWrong`.
  Requests of a condemned session that are answered "blocked" or replayed, and requests during a rollback, leave
  exclusivity alone.
- `reconcileRecoveredActivation` reads the record again after its write. A request accepted in between is reported
  as failed while it runs: `HostExamples.RecoveryReportsTheWrongRequest`. The report is stray exactly when the
  record in memory was replaced while it was due, and then names another request, unless the recovered one was itself
  accepted again: `HostReports.RecoveryNamesTheRecovered`. After every failure that is not stray, the request is
  reported successful only if it is accepted again: `HostReports.FailuresAreFinal`.
- A rollback rename that fails loses the original, because `finally` unlinks its backup:
  `BatchCommit.AllOrNothingExactly` gives the exact condition under every name. A staging write that fails leaves
  its own temporary file behind; all files are as before exactly when that file was never created:
  `BatchCommit.Workspace.CommitBatch`.
- `activateExternalActionAuthorization` throws, where inspection allows, exactly when the operation already has an
  allow receipt under another approval (the unique index on receipts): `Authority.InspectAndActivateAgree`. Such a
  state is reachable: `Authority.ConflictIsReachable`.
- `resumeRun`, a bare `createRun` and a transition to running do not look at the other runs of the session. They keep
  one running run exactly when no other run of it is running: `Sessions.ResumeExactlyWhen`, `CreateExactlyWhen`,
  `TransitionExactlyWhen`. A reachable state where it is not so is in `Sessions.ResumeBreaksIt`.
- A DRAINED that arrives before `waitForDrained` is lost: a drain completes exactly when one arrives after READY, with
  its fence, and after the wait: `GenerationSession.DrainedExactlyWhen`.

## Model

| member | source | states |
|---|---|---|
| TaskRun.EveryHistoryAgrees | adapters/persistence-sqlite/src/store.ts:273-312 | After every sequence of transactions a run's attempts are exactly 1 to run.attempt, the last is active iff the run is running, the audit rebuilds every attempt with chained from/to statuses and versions, event seqs are 1..last_event_seq with non-decreasing attempts, and at most one continuation is active |
| TaskRun.ReplayKeeps | adapters/persistence-sqlite/src/store.ts:2876-2957 | The joint invariant is inductive over all transactions; attempts only rise, and the audit and event logs only grow |
| TaskRun.StepCoherent | adapters/persistence-sqlite/src/store.ts:1506-1586 | Each transaction keeps run and attempts coherent, also when a lease is taken back from a run that has moved on and only the attempt becomes blocked |
| TaskRun.StepAudited | adapters/persistence-sqlite/src/store.ts:301-311 | Each transaction leaves an audit whose replay is the attempts table |
| TaskRun.StepDense | adapters/persistence-sqlite/src/store.ts:2397-2409 | Each transaction keeps the event log dense and its attempt ordinals non-decreasing |
| TaskRun.StepOneActive | adapters/persistence-sqlite/src/store.ts:1603-1616 | Continuation ordinals are dense, at most one continuation is queued or leased, and exactly leased ones have a deadline |
| RunLaws.TransitionsExactlyWhen | adapters/persistence-sqlite/src/store.ts:2876-2904 | On the rows: which transition goes through, and every column it leaves |
| RunLaws.FirstTransitionWins | adapters/persistence-sqlite/src/store.ts:2876-2904 | Of two transitions that expect the same statuses, where the first leaves them, the second changes nothing unless a step in between brought the status back |
| RunLaws.StatusMoves | adapters/persistence-sqlite/src/store.ts:1328-2957 | The only moves of status and attempt that any transaction can make |
| RunLaws.EndedStaysEnded | adapters/persistence-sqlite/src/store.ts:2876-2904 | A cancelled run stays cancelled, and a completed one too unless a handoff blocks it, until a transition expects that status |
| RunLaws.ResumesExactlyWhen | adapters/persistence-sqlite/src/store.ts:2927-2957 | Resumed exactly from interrupted, blocked, waiting with nothing pending, or failed by a timeout of this attempt; the new attempt and its trigger |
| RunLaws.RetriesExactlyWhen | adapters/persistence-sqlite/src/store.ts:1051-1089 | Retried exactly when the newest failure is a retryable launch |
| RunLaws.AsksExactlyWhen | adapters/persistence-sqlite/src/store.ts:1328-1368 | Input is asked for exactly by a running run with nothing pending |
| RunLaws.ClaimsExactlyWhen | adapters/persistence-sqlite/src/store.ts:1618-1654 | Claimed exactly for a blocked run with a due continuation in a session that is not busy; lease, event and next attempt |
| RunLaws.RenewsExactlyWhen | adapters/persistence-sqlite/src/store.ts:1588-1593 | The deadline moves exactly of a lease its owner holds and that has not run out |
| RunLaws.ReleasesExactlyWhen | adapters/persistence-sqlite/src/store.ts:1561-1586 | Given back exactly by its holder |
| RunLaws.RecoversExactlyWhen | adapters/persistence-sqlite/src/store.ts:1506-1532 | Recovery takes exactly a lease whose deadline has come |
| RunLaws.HandsOffExactlyWhen | adapters/persistence-sqlite/src/store.ts:1776-1865 | A handoff is prepared once per request, not for a waiting or cancelled run, with one event that names the continuation |
| RunLaws.QueuesExactlyWhen | adapters/persistence-sqlite/src/store.ts:1417-1503 | An automatic continuation is queued exactly for an interrupted, safe run below the limit |
| RunLaws.QueuesOneExactlyWhen | adapters/persistence-sqlite/src/store.ts:1603-1616 | A continuation is queued exactly where none is queued or leased |
| RunLaws.ClosesExactlyWhen | adapters/persistence-sqlite/src/store.ts:1656-1668 | Closed exactly by its owner while queued or leased |
| RunLaws.CancelsExactlyWhen | adapters/persistence-sqlite/src/store.ts:1670-1674 | Cancelling closes exactly the queued continuations |
| RunLaws.CreatedRows | adapters/persistence-sqlite/src/store.ts:1095-1121 | Every row of a new run |
| TaskStore.SupersedeIsNoOp | adapters/persistence-sqlite/src/store.ts:288-292 | The unaudited superseded update changes no row in a reachable state |
| TaskStore.ProjectAttempt | adapters/persistence-sqlite/src/store.ts:273-312 | The statements of an attempt projection leave what the audited specification says |
| TaskStore.NextDue | adapters/persistence-sqlite/src/store.ts:1621-1622 | The lowest due queued continuation is the active one, found iff that one is queued and due |
| TaskStore.ClaimRow | adapters/persistence-sqlite/src/store.ts:1618-1654 | The claim's statements equal one lease, one event and one new attempt, or nothing |
| TaskStore.HandoffRow | adapters/persistence-sqlite/src/store.ts:1793-1864 | A handoff is prepared once per request, on the active continuation or a new one, and blocks the run; a repeated request changes nothing and answers with the continuation recorded for it |
| TaskStore.Store.TransitionRun | adapters/persistence-sqlite/src/store.ts:2876-2904 | Succeeds iff the run exists, its status is expected and its attempt the expected one, if any; then exactly the status, one event, one attempt row and one audit row change, else nothing |
| TaskStore.Store.RequestUserInput | adapters/persistence-sqlite/src/store.ts:1328-1368 | Records a request and waits only from running without a pending request |
| TaskStore.Store.ResumeRun | adapters/persistence-sqlite/src/store.ts:2927-2957 | Starts the next attempt iff the run is resumable |
| TaskStore.Store.RetryInboxLaunch | adapters/persistence-sqlite/src/store.ts:1051-1089 | Succeeds iff the run failed its launch retryably, its inbox item is started and no other run of the session runs or waits for its continuation; otherwise nothing changes |
| TaskStore.Store.MarkInterrupted | adapters/persistence-sqlite/src/store.ts:2906-2925 | The loop interrupts exactly the running runs, each as one transaction |
| TaskStore.Store.ClaimContinuation | adapters/persistence-sqlite/src/store.ts:1618-1654 | A claim goes through only for a blocked run with a due continuation in a session without another running run |
| TaskStore.Store.RenewContinuationLease | adapters/persistence-sqlite/src/store.ts:1588-1593 | Renewal succeeds iff the owner's lease has not expired |
| TaskStore.Store.ReleaseContinuationLease | adapters/persistence-sqlite/src/store.ts:1561-1586 | Release by the holder requeues the continuation |
| TaskStore.Store.ReleaseContinuationLeases | adapters/persistence-sqlite/src/store.ts:1534-1559 | The loop gives back exactly the leases of one owner |
| TaskStore.Store.RecoverContinuationsAfterRestart | adapters/persistence-sqlite/src/store.ts:1506-1532 | The loop gives back exactly the expired leases and leaves due queued rows alone |
| TaskStore.Store.QueueSafeCrashRecoveryContinuations | adapters/persistence-sqlite/src/store.ts:1417-1503 | The loop queues a continuation exactly for the runs proven safe |
| TaskStore.Store.PrepareGenerationHandoff | adapters/persistence-sqlite/src/store.ts:1776-1865 | One handoff per request, answered with the continuation it used, the same one every time |
| Leases.ClaimsAreSeparated | adapters/persistence-sqlite/src/store.ts:1506-1654 | Between two successful claims of one continuation its holder released it or recovery took it at or after its last lease_until |
| Leases.EveryClaimIsLater | adapters/persistence-sqlite/src/store.ts:1618-1654 | Every claim, of whichever continuation, starts a strictly later attempt than every earlier claim |
| Leases.LostLeaseStaysLost | adapters/persistence-sqlite/src/store.ts:237-240 | With a clock that does not go back, an expired or ended lease is owned again only after a new claim by that owner |
| Leases.ClosedForever | adapters/persistence-sqlite/src/store.ts:1656-1668 | A closed continuation is never reopened |
| CrashRecovery.NeverContinued | adapters/persistence-sqlite/src/store.ts:1417-1503 | A run that crashed with work in flight, or is external, is never continued automatically by any later start |
| CrashRecovery.ContinuedExactlyWhen | adapters/persistence-sqlite/src/store.ts:1417-1503 | Start-up continues a run iff no capability state is malformed, in this run or another, and the run was running or interrupted, without active continuation, uncertain, external or pending work, and below the limit; otherwise the run is interrupted at most, and untouched where malformed state stops the start |
| CrashRecovery.FiringsAreBounded | adapters/persistence-sqlite/src/store.ts:1459-1461 | Over all restarts together a run is continued automatically at most maxRecoveries times |
| CrashRecovery.StartUpIsIdempotent | adapters/persistence-sqlite/src/store.ts:325-373 | Repeating sweep, start-up recovery, interruption and queueing changes nothing, also where malformed state stops it |
| CrashRecovery.StartUpSettles | adapters/persistence-sqlite/src/store.ts:325-373 | Started effects become unknown, authorized capabilities that had not started are cancelled, deliveries under way become unknown, all else stays; malformed state leaves all but the commands |
| CrashRecovery.RunStartupRecovery | adapters/persistence-sqlite/src/store.ts:325-371 | The three operation updates in sequence equal one reconciliation per operation; it goes through exactly if every receipt-bound operation is authorized and not started, started, or over |
| Sessions.OneRunningRunPerSession | adapters/persistence-sqlite/src/store.ts:977-1049 | Guarded claims, retries and continuation claims, interleaved with all transactions that do not set a run to running, keep at most one running run per session |
| Sessions.HistoryValid | adapters/persistence-sqlite/src/store.ts:1011-1049 | All runs of all sessions keep the joint invariant, also when attaching a goal fails the new run |
| Sessions.ClaimNextExactlyWhen | adapters/persistence-sqlite/src/store.ts:977-993 | The next item starts a run exactly where no run of the session runs or waits for input and its newest one is not blocked or interrupted |
| Sessions.ClaimNowExactlyWhen | adapters/persistence-sqlite/src/store.ts:995-1009 | A given item starts a run exactly where no run of the session runs or waits for its continuation |
| Sessions.RetryExactlyWhen | adapters/persistence-sqlite/src/store.ts:1051-1089 | The session's guard of a launch retry |
| Sessions.SettingRunningExactlyWhen | adapters/persistence-sqlite/src/store.ts:2876-2904 | A transaction that sets a run to running keeps one running run per session iff no other run of its session is running |
| Sessions.ResumeExactlyWhen | adapters/persistence-sqlite/src/store.ts:2927-2957 | Where resumeRun is enabled it keeps the property iff no other run of the session is running |
| Sessions.TransitionExactlyWhen | adapters/persistence-sqlite/src/store.ts:2876-2904 | So does a transition of a stopped run to running |
| Sessions.CreateExactlyWhen | adapters/persistence-sqlite/src/store.ts:1095-1121 | A bare createRun keeps the property iff no run of the session is running |
| Sessions.ResumeBreaksIt | adapters/persistence-sqlite/src/store.ts:2940-2957 | In a state that a history reaches, with one running run, resumeRun leaves two |
| EventFeed.CursorsAgreeWithTheLog | adapters/persistence-sqlite/src/store.ts:2397-2456 | In every history the settled and final cursors equal the greatest such event up to acked_seq in the whole log, and acked_seq and generation never fall |
| EventFeed.StaleGenerationsStayStale | adapters/persistence-sqlite/src/store.ts:2437-2438 | An acknowledgement of an earlier generation never moves anything again |
| EventFeed.GreatestIsGreatest | adapters/persistence-sqlite/src/store.ts:2440-2445 | The specification of the derived cursors is the greatest event of those types up to a seq |
| EventFeed.AcksExactlyWhen | adapters/persistence-sqlite/src/store.ts:2433-2456 | Believed exactly from the current generation, within the log and not backwards; the settled cursor is the newest completed, cancelled, blocked or failed event, the final one the newest completed or cancelled |
| EventFeed.ClaimsAnew | adapters/persistence-sqlite/src/store.ts:2411-2431 | A claim starts a new generation and keeps what was acknowledged |
| EventFeed.NewestBetween | adapters/persistence-sqlite/src/store.ts:2440-2445 | The newest event since the last acknowledgement determines the greatest over the whole log |
| EventFeed.Consumers.AckEventConsumer | adapters/persistence-sqlite/src/store.ts:2433-2456 | The incremental update equals the whole-log cursors; stale and invalid acknowledgements change nothing |
| Authority.AuthorityIsAccounted | adapters/persistence-sqlite/src/store.ts:2741-2836 | In every history each receipt stands under a consumed approval of exactly its attempt, each consumed approval has a receipt, no operation is allowed twice, and consumed approvals never change |
| Authority.PassedAttemptsStayDenied | adapters/persistence-sqlite/src/store.ts:2708-2836 | Once run.attempt has passed an attempt, neither query allows it again |
| Authority.ReceiptsAreWrittenByTheRunningAttempt | adapters/persistence-sqlite/src/store.ts:2761-2836 | A receipt under an approval is written only while the run is running in the approved attempt |
| Authority.InspectAndActivateAgree | adapters/persistence-sqlite/src/store.ts:2708-2836 | Both queries agree in every reachable state, the raced answer is unreachable, and activation conflicts iff the operation is allowed under another approval |
| Authority.UsesExactlyWhen | adapters/persistence-sqlite/src/store.ts:2761-2836 | The newest granted approval of the running attempt decides: allowed again, in conflict, or allowed with a new receipt that consumes it |
| Authority.UngrantedIsDenied | adapters/persistence-sqlite/src/store.ts:2761-2836 | Without a granted approval of the attempt every action is denied |
| Authority.GrantsExactlyWhen | adapters/persistence-sqlite/src/store.ts:2708-2760 | When a row of any kind grants, also a reusable or expiring one, and what one use makes of it |
| Authority.AsksAndAnswers | adapters/persistence-sqlite/src/store.ts:2612-2706 | A request is recorded unless one is pending; an answer reaches only the pending request it names |
| Authority.ConflictIsReachable | adapters/persistence-sqlite/src/store.ts:2761-2836 | Approve, use an operation, approve the attempt again: inspection allows and using that operation throws |
| Authority.Approvals.ActivateExternalAction | adapters/persistence-sqlite/src/store.ts:2761-2836 | The statements of activation give the specified rows and answer |
| Evidence.TrustedExactlyWhen | adapters/persistence-sqlite/src/store.ts:2979-2996 | For a bound check the gate's re-check succeeds iff the check is not stale and its operation is of the current attempt |
| Evidence.StoresExactlyWhen | adapters/persistence-sqlite/src/store.ts:2336-2377 | Refused exactly if a passed check names a source that does not show it; otherwise every column of the stored check |
| Evidence.TrustedInColumns | adapters/persistence-sqlite/src/store.ts:2979-2996 | The re-check of any stored check, bound or not, in columns |
| Evidence.MarksStale | adapters/persistence-sqlite/src/store.ts:2318-2322 | Marking changes nothing but the flag of passed checks |
| Evidence.DistrustLastsUntilRebound | adapters/persistence-sqlite/src/store.ts:3038-3042 | After distrust every required check fails the gate through any history without a new binding |
| Evidence.AdvancingDistrusts | adapters/persistence-sqlite/src/store.ts:2940-2957 | Advancing the attempt distrusts every stored check |
| Evidence.HistoryBound | adapters/persistence-sqlite/src/store.ts:2336-2377 | In every history a stored check with a source is backed by a successful operation with the same command and time, of an attempt not after the current one |
| Evidence.Checks.UpsertCheck | adapters/persistence-sqlite/src/store.ts:2324-2377 | Stores the bound check, or refuses |
| Evidence.Checks.MarkChecksStale | adapters/persistence-sqlite/src/store.ts:2318-2322 | Leaves no trusted check |
| Evidence.Checks.FailingChecks | adapters/persistence-sqlite/src/store.ts:3038-3042 | Returns exactly the required checks that are unbound, stale or of another attempt |
| SessionInbox.ReorderListsAsGiven | adapters/persistence-sqlite/src/store.ts:897-911 | After a successful reorder the listed queue is the given list and no other |
| SessionInbox.ManualOrderIsObeyed | adapters/persistence-sqlite/src/store.ts:977-993 | Reorder an inbox of any history: with only enqueues and claims afterwards, claims take the pending ids in the given order, before any later item |
| SessionInbox.FirstHeads | adapters/persistence-sqlite/src/store.ts:988 | The claimable row that no other claimable row precedes, in columns |
| SessionInbox.ListedInColumns | adapters/persistence-sqlite/src/store.ts:977-993 | Each listed row precedes, in columns, every later one |
| SessionInbox.ReorderedExactlyWhen | adapters/persistence-sqlite/src/store.ts:897-911 | A reorder goes through iff it names every queued item exactly once and nothing else |
| SessionInbox.EditedExactlyWhen | adapters/persistence-sqlite/src/store.ts:706-720 | Any other edit goes through iff each item it names is queued and belongs to no goal |
| SessionInbox.EditedInColumns | adapters/persistence-sqlite/src/store.ts:913-975 | What each edit changes in the rows it names; all other rows stay |
| SessionInbox.EnqueuedInColumns | adapters/persistence-sqlite/src/store.ts:574-600 | An unknown request comes in pending, outside the manual order, behind every queued position |
| SessionInbox.RevisionRises | adapters/persistence-sqlite/src/store.ts:560-564 | The revision never falls, and whatever changes an item raises it |
| SessionInbox.GivenInColumns | adapters/persistence-sqlite/src/store.ts:922-927 | Claiming or discarding a given item touches exactly its row, if queued |
| SessionInbox.UnknownIsLeft | adapters/persistence-sqlite/src/store.ts:995-998 | An unknown item is neither claimed nor discarded |
| SessionInbox.MutatesExactlyWhen | adapters/persistence-sqlite/src/store.ts:722-791 | Which answer a profile mutation gets, and what it leaves, in columns |
| SessionInbox.SnapshotsAreRows | adapters/persistence-sqlite/src/store.ts:722-791 | The stored value holds the rows of the edited ids in their order |
| SessionInbox.MutationsTakeEffectOnce | adapters/persistence-sqlite/src/store.ts:722-791 | After a mutation succeeded, its identity replays the first value or is refused, in every later history |
| SessionInbox.RevisionsStrictlyIncrease | adapters/persistence-sqlite/src/store.ts:560-564 | Effective mutations never share an expected revision and their resulting revisions strictly increase |
| SessionInbox.Rows.ReorderSessionInbox | adapters/persistence-sqlite/src/store.ts:897-911 | Assigning positions row by row and marking all manual is the specified reorder, done iff the ids are exactly the queued ones |
| SessionInbox.Rows.MutateSessionInboxProfile | adapters/persistence-sqlite/src/store.ts:722-791 | Receipt lookup, revision check, work and a receipt whose value holds the snapshots of the items, as specified, with its result |
| SessionInbox.Rows.ClaimNextSessionInbox | adapters/persistence-sqlite/src/store.ts:977-993 | Claims an item iff one is queued and pending and the session is free: manual items first, by position, then by urgency, priority, position, creation and id; only that row changes |
| PlanGraph.CyclicPlanItemKeys | adapters/persistence-sqlite/src/store.ts:2244-2267 | Non-empty iff the dependency graph has a cycle; every returned key lies on one; sorted |
| PlanGraph.PlanStaysAcyclic | adapters/persistence-sqlite/src/store.ts:2183-2243 | The stored plan stays acyclic under every sequence of upserts, each refused only for a way back to the item it stores |
| PlanGraph.ClosesCycleExactlyWhen | adapters/persistence-sqlite/src/store.ts:2231-2243 | In an acyclic graph, giving a key new dependencies closes a cycle iff stored dependencies lead from one of them back to the key |
| PlanGraph.PlanStore.UpsertPlanItem | adapters/persistence-sqlite/src/store.ts:2183-2221 | Stores the item or refuses it with the plan unchanged; refused as cyclic iff the prospective plan has a cycle, that is, iff the item depends on something that leads back to it; the columns of a stored item, and a revision exactly for a criterion-aware change |
| PlanGraph.ObjectsExactlyWhen | adapters/persistence-sqlite/src/store.ts:2269-2316 | Too many or repeated dependencies, itself, something unknown, or an unexplained change of scope, and nothing else |
| PlanGraph.BackEdgeIsRefused | adapters/persistence-sqlite/src/store.ts:2231-2243 | An item that depends on something that reaches it is refused |
| PlanGraph.DanglingIsHarmless | adapters/persistence-sqlite/src/store.ts:2244-2267 | A dependency on a key not inserted yet closes no cycle |
| HostSafety.VerdictsAreTrue | apps/core-service/src/host.ts:327-426 | In every durable state of every run the record disagrees with the link iff a candidate died between its committed record and its settlement and the rollback has changed the link since; a reported success names an unlinked release iff a rollback had changed the link under its record; a reported rollback names the linked one. Excepted is what a usurped lifetime wrote or sent |
| HostSafety.GenerationsAreExclusive | apps/core-service/src/host.ts:252-296 | In a lifetime in which no condemned restart had a request accepted, at every spawn every earlier child is dead, at most one lives at any time, and the fences of returned Generations strictly increase |
| HostGates.NothingPassesAGate | apps/core-service/src/host.ts:327-426 | In every run, from acceptance until the await of a gate succeeds for a request or a Host start recovers its record: no record of it is validating before its target was resolved, draining, starting or committed before that was verified, committed before the candidate stayed up, rolled back before the previous release was verified; no task stage and no result behind the gate |
| HostGates.StepsStayBefore | apps/core-service/src/host.ts:327-426 | Before a gate no step of the task links the target, nor starts it before it was verified; an unverified rollback links and starts nothing of the previous release |
| HostGates.RejectionsEnd | apps/core-service/src/host.ts:390-420 | Each rejected await: failure recorded and the old Generation kept, rollback where that has gone, the candidate stopped for a rollback, or the end of the Host |
| HostGates.CommitFailuresEnd | apps/core-service/src/host.ts:371-420 | A link commit that fails, moved or not, stops the candidate for a rollback, or ends the Host in a rollback |
| HostGates.RefusedIsAnswered | apps/core-service/src/host.ts:390-410 | A refused request is told that it failed, with the release that goes on serving |
| HostGates.RecoveredTarget | apps/core-service/src/host.ts:746-761 | A start that commits a record nothing was drained for restarts what was linked |
| HostGates.OutcomesNeedTheLiving | apps/core-service/src/host.ts:374-389 | Committed only with a live candidate, rolled back only by a live Generation with a greater fence, success told only to a live candidate |
| HostGates.AnswersExactlyWhen | apps/core-service/src/host.ts:298-326 | When an ACTIVATE is ignored, refused, replayed with its record's result, blocked or accepted |
| HostGates.StoppedStays | apps/core-service/src/host.ts:240-251 | A stopped Host starts no Generation and links nothing while the process lives |
| HostGates.ClosesAndExits | apps/core-service/src/host.ts:240-251 | Closing stops the active session; an exit that is managed, of another session or of a stopped Host is no crash |
| HostGates.LateReadyExactlyWhen | apps/core-service/src/host-generation-session.ts:136-146 | A late READY is believed exactly of a live session that is being killed and had not announced itself |
| HostProgress.GoodAnswersCommit | apps/core-service/src/host.ts:327-389 | From every sound serving state an accepted request has a continuation that links, records and reports its release, whose Generation then serves |
| HostProgress.RestartsExactlyWhen | apps/core-service/src/host.ts:508-572 | A crashed Generation is restarted iff the crash is recorded and the window holds no more than the allowed number |
| HostProgress.RelaunchesExactlyWhen | apps/core-service/src/host.ts:508-572 | A restart goes on iff the linked release resolves and verifies |
| HostProgress.ReturnsExactlyWhen | apps/core-service/src/host.ts:252-296 | A restarted Generation takes over iff it is ready in time with a greater fence |
| HostProgress.StartsExactlyWhen | apps/core-service/src/host.ts:192-239 | A Host starts the linked release iff within budget, pruned list written, and verified |
| HostProgress.ReconcilesExactlyWhen | apps/core-service/src/host.ts:746-761 | What the READY of a Host start makes of the recovered record, and which result it sends |
| HostProgress.FailedStartEnds | apps/core-service/src/host.ts:222-239 | A refused start stops its Generation, counts as a crash once that is gone, and ends the process |
| HostProgress.RefusedRestartExactlyWhen | apps/core-service/src/host.ts:508-572 | A refused restart is recorded as a crash once its Generation is gone, and tried again within the budget |
| HostProgress.CandidateFails | apps/core-service/src/host.ts:252-296 | A candidate is taken over iff ready in time with a greater fence; any other is killed, and the rollback begins once it is gone |
| HostProgress.GoodAnswersRestore | apps/core-service/src/host.ts:463-507 | With good answers a rollback links, records and reports the previous release, whose Generation serves |
| HostUsurpation.UsurpationSplits | apps/core-service/src/host.ts:252-296 | From every sound state in which a condemned restart has a request accepted for the release it runs, some continuation has two live Generations |
| HostUsurpation.UsurpationMisleads | apps/core-service/src/host.ts:252-296 | From every such state some continuation writes a durable record that disagrees with the link, although no rollback has changed the link under it |
| HostBudget.RestartsAreBounded | apps/core-service/src/host.ts:508-572 | The durable crash list is the window suffix of the whole history; no window holds more than maxCrashes crashes followed by an automatic restart |
| HostSafety.NextKeeps | apps/core-service/src/host.ts:192-572 | Every step of the Host, from every state of the invariant, keeps shape, fences and the truth of record and results, or usurps the lifetime and keeps the truth of what was sent before |
| HostSafety.ActivateKeeps | apps/core-service/src/host.ts:677-702 | Acceptance, replay, conflict and refusal of ACTIVATE keep the sound part of the invariant whenever no condemned restart's request is accepted |
| HostBudget.CrashAccounted | apps/core-service/src/host.ts:665-671 | Prune and append yields the window suffix of the longer history |
| HostBudget.WithinKeepsLater | apps/core-service/src/host.ts:665-671 | The window keeps exactly the later crashes |
| HostReports.FailuresAreFinal | apps/core-service/src/host.ts:677-761 | In every run, after a request was reported failed it is reported successful only if it was accepted again in between, unless the failure is a recovery report made after its record was replaced |
| HostReports.RecoveryNamesTheRecovered | apps/core-service/src/host.ts:746-761 | In every run, the recovery report is stray iff the record in memory was replaced while it was due; otherwise it names the recovered request, and not as failed; a stray one names that request only if it was accepted again |
| HostExamples.CommittedThenRolledBack | apps/core-service/src/host.ts:374-426 | A run from a fresh installation that reports success of a release that was rolled back |
| HostExamples.UnwrittenSuccessReplayed | apps/core-service/src/host.ts:677-702 | A run in which a committed record is never written and its success is replayed from memory after the rollback |
| HostExamples.UnverifiedSuccessReported | apps/core-service/src/host.ts:746-761 | A run in which a start reports success of a restart that nothing was verified for |
| HostExamples.RecoveryReportsTheWrongRequest | apps/core-service/src/host.ts:746-761 | A run in which recovery reports a newer request as failed that later succeeds |
| HostExamples.RejectedGenerationIntrudes | apps/core-service/src/host.ts:252-296 | A run from a fresh installation with two live Generations |
| HostExamples.UsurpedRecordIsWrong | apps/core-service/src/host.ts:746-761 | A run in which the start after a usurped lifetime reports a rollback to a release that is not linked |
| GenerationSession.SessionKeeps | apps/core-service/src/host-generation-session.ts:72-186 | An unexpected exit is reported at most once; the believed READY is final; believed heartbeats rise; a drain completes only with the fence of that READY |
| GenerationSession.ReportedExactlyWhen | apps/core-service/src/host-generation-session.ts:72-95 | Over every input sequence an exit is reported iff at some point the session had exited and its exit was not managed |
| GenerationSession.ReadyExactlyWhen | apps/core-service/src/host-generation-session.ts:121-146 | A READY is believed iff one of the session's own generation and release arrived |
| GenerationSession.BeatsExactlyWhen | apps/core-service/src/host-generation-session.ts:147-162 | A heartbeat is believed iff it follows the believed READY with its fence, from the own release, above every number believed before |
| GenerationSession.ExitedExactlyWhen | apps/core-service/src/host-generation-session.ts:72-101 | The exit is the first signal's and managed by the Host's last word |
| GenerationSession.ActivationsArePassed | apps/core-service/src/host-generation-session.ts:170-180 | Activations are passed on exactly as they arrive after READY |
| GenerationSession.DrainedExactlyWhen | apps/core-service/src/host-generation-session.ts:103-110 | A drain completes iff a DRAINED for its request arrives with the fence of the believed READY, after that READY and after the wait began |
| GenerationSession.EarlyDrainedIsLost | apps/core-service/src/host-generation-session.ts:103-110 | A witness for DrainedExactlyWhen: a DRAINED before the wait does not complete it |
| GenerationSession.Session.Accept | apps/core-service/src/host-generation-session.ts:121-179 | Message acceptance as specified |
| BatchCommit.Workspace.CommitBatch | adapters/workspace-local/src/workspace-fd-helper.py:228-321 | Which outcome, exactly, for every answer of the operating system: committed iff every entry is accepted and every write, rename, sync and unlink succeeds; the swap failed iff staging passed and some rename or sync failed; otherwise the first entry and reason that stopped staging. All-or-nothing: refused or undone batches leave all files as they were, a failed staging does so iff its temporary was never created, a success writes every target and removes every temporary and backup name |
| BatchCommit.RollbackRestores | adapters/workspace-local/src/workspace-fd-helper.py:291-321 | A failed swap at any index is undone for every file, also with repeated targets |
| BatchCommit.AllOrNothingExactly | adapters/workspace-local/src/workspace-fd-helper.py:291-321 | For every batch and every name: the failed swap is undone there iff what the successful renames leave, read off the report, is the original or an entry that changes nothing |
| BatchCommit.FirstBackupDecides | adapters/workspace-local/src/workspace-fd-helper.py:291-321 | For a target that all its entries change, the undo is complete iff its first backup was renamed back |
| BatchCommit.CommittedContents | adapters/workspace-local/src/workspace-fd-helper.py:228-321 | A target holds its last entry with its own permission bits; other names are unchanged |
| Transcript.MergeTranscriptItems | apps/web-console/src/transcript-projection.ts:15-43 | The loops compute the declarative merge |
| Transcript.MergeShowsEachKeyOnce | apps/web-console/src/transcript-projection.ts:15-43 | One item per key: the last incoming, else the last current |
| Transcript.MergeStaysSorted | apps/web-console/src/transcript-projection.ts:15-43 | Ascending by sequence, and by index (absent as 0) where sequences are equal, whenever current is |
| Transcript.MergeKeepsTies | apps/web-console/src/transcript-projection.ts:15-43 | Items in one place: those retained first, then the delta's, each in their own order |
| Transcript.RetainedInOrder | apps/web-console/src/transcript-projection.ts:22-32 | Retained items stand in the order of the transcript |
| Transcript.SameKeyExactlyWhen | apps/web-console/src/transcript-projection.ts:15-20 | One to the merge are results of one tool call, or messages of one kind in one place |
| Transcript.MergeIsIdempotent | apps/web-console/src/transcript-projection.ts:15-43 | Merging the same delta again changes nothing |
| Transcript.StableSortKeepsTies | apps/web-console/src/transcript-projection.ts:22-24 | The sort keeps the order of items with the same sequence and index |
| Transcript.GroupExecutionItems | apps/web-console/src/transcript-projection.ts:46-76 | Grouping then flattening gives the non-user items in order, in well-formed stages |
| Transcript.SameStageKeyExactlyWhen | apps/web-console/src/transcript-projection.ts:10-12 | Stage keys agree iff their first items share place and kind |

## Left out

- TaskRun columns no guard reads (phase, blocked_reason, timestamps, usage) and run checkpoints.
- submitUserInput, updateContinuation, cancelQueuedContinuations and recordGenerationActivationResult: in the specification and all its theorems, but without a method of their own.
- The settling and candidate states of attempts written by the other repositories of the package (attempt-repository, attempt-runtime-mutation-repository, task-run-transition-repository): only the transactions of store.ts are modelled.
- Sessions.OneRunningRunPerSession: leaves out resumeRun, a bare createRun and transitions to running, which have no such check (their exact conditions are theorems of their own), and claims with approved parallel work.
- Authority.AuthorityIsAccounted: covers approvals made by ensureApprovalRequest; rows with a reusable mode or an expiry written elsewhere are not in its histories.
- Evidence.Checks.FailingChecks: covers only the check part of evaluateGate; plan coverage, completion evidence and the execution policy are not modelled, and trimming knows four space characters.
- SessionInbox: routing, duplicates, clarification, audit receipts and the analysis of an item; a rewrite's content is taken as trimmed.
- HostSafety.GenerationsAreExclusive: says nothing of a usurped lifetime, see above.
- HostSafety.VerdictsAreTrue: says nothing of the record and the results of a usurped lifetime, nor of that record in later lifetimes until a record of another request replaces it; `HostUsurpation.UsurpationMisleads` shows why.
- HostProtocol: when the first READY of a Host start is refused or late, the child is stopped in the same step; a message it sends while it is being killed is not modelled there, as it is for restarts and rollbacks.
- HostProtocol: the Host's fields are one value and its code a step function, because a crash may fall between any two steps; so aliasing and the order of statements inside a step are not captured. Detached failures of an activation task (host.ts:306-325), the waiting times themselves, IPC field validation and the release registry beyond its link.
- BatchCommit: directory descriptors, modes other than permission bits, and symbolic links.
- HTTP routing, configuration, the provider transport, React code and schema migration.
