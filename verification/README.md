# Verified model of the orchestration protocol

A Dafny model of the parts of the repository whose guarantees span whole runs, with proofs that
hold for every run, every interleaving and every crash point:

* **The v4 tracker and scheduler.** `IssueLedger`, `LedgerRules`, `LedgerAdapter`, `LedgerHistory`,
  `TrackerRefinement`: the append-only compare-and-set log kept in issue comments, what is on
  record after any run of it, and the in-memory tracker (`Tracker`) that it refines. `SharedFence`:
  the lease elected through a second comment log. `RunStores`, `Identity`, `DispatchOrder`,
  `Scheduler`, `SchedulerRuns`, `RunFates`, `CrashRecovery`, `Uniqueness`, `SystemRuns`: the
  deterministic scheduler with its three crash points, restarts and outside moves, and what a tick
  makes of each kind of issue.
* **The coordinator inbox and hand-over.** `InboxLog` treats every command as a list of file
  writes and proves what follows for any log of permitted writes; `Inbox` gives the writes of each
  command and shows that every prefix of them, that is every crash, is permitted; `InboxRuns` lets
  statuses be published, under their own lock, between any two steps of a command;
  `InboxFiles` contains the loops that make the writes; `InboxEffects` says what each command
  leaves on the desk, and `InboxGuarantees` and `HandOver` what a claim and a hand-over deliver.
  `Registry` and `RegistryEffects`: the coordinator registry.
* **Recovery.** `IncidentRow`, `Incidents`, `IncidentEffects`: the bounded attempt budget, the
  controller lease, the kill switch, and when an incident clears. `AdmissionReceipt`,
  `AdmissionHistory`, `AdmissionOutcome`, `Admission`: the delivery cycle that finishes on an exact
  receipt and only on one, against arbitrary replies.
* **Two graph algorithms.** `DependencyCheck` and `ProcessTree`.
* **The owner-directive desk.** `JsonRecord`, `DeskNotes`, `DirectiveLedger`, `DeskRecords`,
  `MarkerFreeText`, `DirectiveDesk`, `DeskAnswers`: records printed into and parsed out of free-form notes, and the append-only
  ledger that must agree with them.

Code that changes state step by step is a class whose methods are proved equal to specification
functions; the properties of runs are lemmas about those functions. Conventions used throughout:
SHA-256 is an injective function, so a digest is represented by the text that was hashed; times are
integers in milliseconds; I/O, clocks and the network come in as parameters.

## Findings

* `failClaim` of the comment ledger does not check the lifecycle table before it appends. A
  retryable failure reported for an issue in review is accepted by the writer and makes the
  issue's log unreadable for good (`LedgerAdapter.FailureInReviewBreaksLedger`,
  `LedgerAdapter.UnlawfulFailureReachable`). The log folds without error exactly when no winning
  comment is such a report (`IssueLedger.CasLinearizable`).
* Run identity is the text `issueId + "\n" + identifier + "\n" + attempt`. Two attempts share an
  identity exactly when attempt and joined text agree (`Identity.SharedIdentity`), so issue IDs with
  line breaks can collide (`Identity.LineBreaksCollide`); issue IDs without them never do. Claim
  fences are joined in the same way and are unambiguous unless a base commit contains a line break
  (`Identity.FencesDiffer`, `Identity.FenceLineBreaksCollide`).
* A directive whose texts contain the record marker, or that the ledger would refuse, is written to
  the desk before that is noticed, and then the notes can never be loaded again: every later ingest
  and projection fails, restarts included (`DirectiveDesk.UnreadableForGood`). A written directive
  leaves the desk readable exactly when the ledger would accept it and none of its own texts contains
  the marker (`DirectiveDesk.IngestOnHealthy`, `MarkerFreeText.DigestedStorable`); over whole runs,
  exactly when no such directive was written (`DirectiveDesk.ReadableExactly`). Two inputs, one of
  which is even reported as a success: `DirectiveDesk.TwoSpoil`.
* An inbox item of revision 0 is never held back by a claim (`InboxLog.NothingStranded`), because a
  stored zero reads as "absent"; and in no history is such an item ever acknowledged
  (`InboxLog.ZeroRevisionNeverAcknowledged`; input: `InboxRuns.ZeroRevisionStuck`). Every other item is
  acknowledged exactly by an ack with its token and a newer status (`InboxRuns.AckExactly`).
* A status that acknowledges an item was published after the claim had read the status file, but not
  always after the item was bound, as `scripts/coordinator-inbox.py:395-396` says: publication runs
  under another lock. It came before the binding
  exactly when it stood in the file at that moment (`InboxLog.NoFactAcknowledgedUnseen`). A run of
  three commands in which it did: `InboxRuns.EarlyStatusAcknowledges`.
* A controller that takes the recovery lease under a blank session name is not protected by it:
  while a lease is in force, another controller takes over exactly when the lease was taken under a
  blank name (`Incidents.LiveLeaseExcludes`; input: `Incidents.BlankSessionIsTakenOver`).
* The registry accepts a transfer of a project to its own owner. The generation rises, adoption is
  refused because the predecessor is the coordinator itself, and the events received before can be
  neither claimed nor acknowledged for as long as that owner stays (`HandOver.SelfTransferStrands`,
  `HandOver.OwnPastStaysBehind`). A hand-over keeps its events exactly when the transfer was opened in
  favour of another session (`HandOver.TransferKeepsExactly`); a claim, also a repeated one by the
  owner, exactly when it names their addressee as predecessor (`HandOver.ClaimReachesExactly`).
* A block of the admission lane, called durable and never auto-cleared at
  `scripts/recovery-admission.py:1059-1060`, is lifted by one failed probe of its controller: the
  blocked - or the outstanding - state becomes a deferred one, and the next tick begins a new cycle
  that has forgotten the message and the recovery and repair spent on it
  (`Admission.AdmissionFile.ProbeFailsOnce`, for every such state). A tick keeps a block for the same
  target exactly when the probe does not fail or its budget is spent (`Admission.AdmissionFile.Tick`).
* A project on hold is to be resumed by the owner's word and refuses transfers. A hold also ends when
  its coordinator claims the project again, or renews or begins a transfer with an unresolved reporting
  violation (`Registry.HoldEndsExactly`; runs: `Registry.HoldEndsWithoutResume`).

## Model

| member | source | states |
|---|---|---|
| Domain.TerminalMeansStuck | v4/src/domain.ts:187-216 | the four states called terminal are exactly those without a successor |
| Domain.WaysInto | v4/src/domain.ts:187-202 | for each state, exactly the states it can be reached from |
| Domain.RetryDelayBounded | v4/src/adapters.ts:110-118 | each back-off lies between base and maximum and never shrinks from one attempt to a later one |
| Domain.RetryDelayDoubles | v4/src/adapters.ts:110-118 | the back-off starts at the base and doubles from one attempt to the next until it meets the maximum |
| Identity.AttemptLabelInjective | v4/src/adapters.ts:181-186 | the index key `issueId:attempt` names one attempt of one issue, whatever the ID contains |
| Identity.SharedIdentity | v4/src/identity.ts:25-42 | two attempts share session and workspace IDs if and only if attempt and joined issue text agree |
| Identity.IdentityInjective | v4/src/identity.ts:25-42 | issue IDs without line breaks get distinct sessions and workspaces per issue, identifier and attempt |
| Identity.LineBreaksCollide | v4/src/identity.ts:25-30 | without that restriction two different issues can share an identity |
| Identity.NamelessExactly | v4/src/identity.ts:11-32 | an attempt has no identity if and only if its identifier is blank or leads out of the root |
| Identity.FencesDiffer | v4/src/identity.ts:44-64 | for base commits without line breaks two fences are equal if and only if issue, attempt, version and base commit agree |
| Identity.FenceLineBreaksCollide | v4/src/identity.ts:56 | a line break in a base commit can give two issues one fence |
| IssueLedger.HydrateCore | v4/src/github-adapter.ts:486-536 | the hydrate loop rebuilds the folded snapshot and the set of winning comments, or the first error |
| IssueLedger.FoldComments | v4/src/github-adapter.ts:530-536 | the loop over comments equals the fold |
| IssueLedger.WriteMatchesReducer | v4/src/github-adapter.ts:164-282 | an event built by any call is accepted by the reducer on the snapshot it was built from, unless it is an unlawful failure report, which is rejected as an invalid event |
| IssueLedger.FoldStaysBroken | v4/src/github-adapter.ts:588-632 | a corrupt comment breaks every longer log with the same error |
| LedgerRules.EveryCommentObeys | v4/src/github-adapter.ts:588-643 | in every readable log, whoever wrote it, no comment is ahead of its version, exactly the comments for the version at hand count, and each of these was made from the state the issue was in, by the holder of its claim, along the lifecycle, and with the proof its transition needs |
| IssueLedger.CasLinearizable | v4/src/github-adapter.ts:331-344 | for every interleaving the accepted comments are exactly the first per expected version, the version counts them, and the fold is error-free exactly when no winner is an unlawful failure report; the only error there can be is that invalid event, never a version gap, a wrong source state or a wrong binding |
| IssueLedger.CommitDecides | v4/src/github-adapter.ts:331-344 | at any later readback a writer finds its comment accepted if and only if no earlier comment expected the same version |
| IssueLedger.OneWinnerPerVersion | v4/src/github-adapter.ts:331-344 | of two writers that read the same version the later one loses to somebody no later than the first |
| LedgerAdapter.IssueComments.CallAdapter | v4/src/github-adapter.ts:164-344 | read, build, append and read back: among honest writers the call reports success exactly when it was first for its version |
| LedgerAdapter.ReadbackDecides | v4/src/github-adapter.ts:331-337 | membership of a comment in the accepted set after a readback |
| LedgerAdapter.FailureInReviewBreaksLedger | v4/src/github-adapter.ts:220-247 | a retryable failure reported in review is appended and no reader can fold the log again |
| LedgerAdapter.UnlawfulFailureReachable | v4/src/github-adapter.ts:610-613 | for every issue a run of four calls reaches such a log |
| LedgerHistory.WinnerSawTheIssue | v4/src/github-adapter.ts:331-344 | the writer of a winning comment had read the issue as it stood just before, and any other comment changes nothing |
| LedgerHistory.FoldIsLastWinner | v4/src/github-adapter.ts:588-632 | state, claim, retry, evidence and version after any number of comments are those of the last winner |
| LedgerHistory.CallHasItsEffect | v4/src/github-adapter.ts:164-282 | what a winning claim, start, heartbeat, failure or transition does to state, claim, retry and evidence |
| LedgerHistory.TransitionIsProven | v4/src/github-adapter.ts:634-643 | after every winning transition the proof of the new state is in the folded evidence; a high-risk issue is merged only from the owner gate, and one to be deployed is done only after it was |
| LedgerHistory.GateNeverChanges | v4/src/github-adapter.ts:634-643 | the owner gate in the evidence after m comments is the same after every n >= m, and an issue at the gate names one |
| TrackerRefinement.AcceptedEventIsACall | v4/src/github-adapter.ts:588-632 | one accepted event is one successful in-memory call, with equal state, version, claim binding, retry and non-provider evidence |
| TrackerRefinement.LedgerRefinesTracker | v4/src/github-adapter.ts:164-282 | replaying only the winners of any run is a successful run of the in-memory tracker ending in the folded state, recorded evidence included |
| TrackerRefinement.LedgerTransitionStricter | v4/src/github-adapter.ts:249-282 | a transition is written if and only if the in-memory tracker allows it and provider proof is present |
| TrackerRefinement.WrittenExactly | v4/src/github-adapter.ts:164-282 | a call of any kind is appended and lawful if and only if the in-memory tracker accepts it and, for a transition, provider proof and an unchanged gate are there |
| SharedFence.ReduceSharedFence | v4/src/github-adapter.ts:690-721 | the loop computes the lease and the accepted comments of any log |
| SharedFence.MalformedExactly | v4/src/github-adapter.ts:690-721 | one malformed comment makes the whole log unreadable, and nothing else does |
| SharedFence.CountsExactly | v4/src/github-adapter.ts:690-721 | an acquisition counts if and only if no comment counted before it or the last one that did is a release or has expired; an extension or release if and only if the last one that counted is its own holder's and no release |
| SharedFence.FenceComments.AcquireSharedFence | v4/src/github-adapter.ts:363-377 | success means the own comment counted and the lease at readback is the own one; if nobody writes in between, it comes if and only if the fence was free at that time |
| SharedFence.FenceComments.HeartbeatSharedFence | v4/src/github-adapter.ts:379-393 | the same for an extension: alone, it succeeds if and only if the fence is held under the same issue and fence |
| SharedFence.FenceComments.ReleaseSharedFence | v4/src/github-adapter.ts:395-406 | appends exactly the release comment |
| SharedFence.OnlyHolderOrExpiry | v4/src/github-adapter.ts:690-721 | a lease changes only through its holder or by an acquisition at or after its expiry |
| SharedFence.ConsecutiveTenures | v4/src/github-adapter.ts:690-721 | between two consecutive acquisitions everything that counts is the first holder's, which released or whose last expiry has passed |
| SharedFence.TenuresDisjoint | v4/src/github-adapter.ts:690-721 | the same for any two acquisitions, however far apart |
| SharedFence.ElectedOneAtATime | v4/src/github-adapter.ts:363-377 | corollary of the row above: two schedulers told they hold the fence did not hold it at the same time |
| Tracker.FakeGitHubAdapter.SeedIssue | v4/src/adapters.ts:27-39 | adds one entry at version 1 or refuses a duplicate |
| Tracker.FakeGitHubAdapter.ActiveClaims | v4/src/adapters.ts:55-57 | the claim holders in insertion order |
| Tracker.FakeGitHubAdapter.TryClaimIssue | v4/src/adapters.ts:65-81 | claims exactly when version, state, retry date and attempt fit and nothing else is claimed |
| Tracker.FakeGitHubAdapter.MarkClaimRunning | v4/src/adapters.ts:83-92 | the new tracker state, or no change when it throws |
| Tracker.FakeGitHubAdapter.HeartbeatClaim | v4/src/adapters.ts:94-99 | only heartbeat, expiry and version move |
| Tracker.FakeGitHubAdapter.FailActiveClaim | v4/src/adapters.ts:101-129 | retry-wait with the next attempt, or failed, exactly by class and limit |
| Tracker.FakeGitHubAdapter.TransitionIssue | v4/src/adapters.ts:131-157 | the new entry, or no change when it throws |
| RunStores.EnsureIsIdempotent | v4/src/adapters.ts:181-240 | ensure succeeds if and only if the attempt already has this identity or both are new; records never change and repeating it changes nothing |
| RunStores.OneRecordPerAttempt | v4/src/adapters.ts:181-240 | the two indexes hold at most one record per attempt |
| RunStores.FakeWorkspaceAdapter.EnsureWorkspace | v4/src/adapters.ts:181-200 | both indexes after the call |
| RunStores.FakeCraftAdapter.EnsureSession | v4/src/adapters.ts:220-240 | both indexes and the status after the call |
| RunStores.FakeCraftAdapter.SetStatus | v4/src/adapters.ts:247-251 | what a session reports: its status alone changes, and only for a known session |
| DispatchOrder.SortSorted | v4/src/scheduler.ts:259-266 | sorting by dispatch order yields an ordered permutation |
| DispatchOrder.TextOrder | v4/src/scheduler.ts:259-266 | texts are compared by the first character that differs, a beginning before what continues it |
| Scheduler.DeterministicScheduler.RunTick | v4/src/scheduler.ts:68-102 | one tick as a function of the world, crash point and cancel answer |
| Scheduler.DeterministicScheduler.Reconcile | v4/src/scheduler.ts:108-200 | the reconciliation loop |
| Scheduler.DeterministicScheduler.ReconcileEntry | v4/src/scheduler.ts:108-146 | identity, model, expiry and restart of one active claim |
| Scheduler.DeterministicScheduler.ReconcileRun | v4/src/scheduler.ts:142-199 | what becomes of a running claim by session status and staleness |
| Scheduler.DeterministicScheduler.Start | v4/src/scheduler.ts:202-238 | workspace, session, running, with the two crash points between them |
| Scheduler.DeterministicScheduler.Dispatch | v4/src/scheduler.ts:76-101 | the candidate loop claims and starts the first it can |
| SchedulerRuns.PreserveKeeps | v4/src/domain.ts:187-202 | preservation-unknown is legal from every claim-holding state |
| SchedulerRuns.AtMostOneActive | v4/src/scheduler.ts:108-112 | reconciliation never finds more than one claim |
| SchedulerRuns.ReconcileOneKeeps | v4/src/scheduler.ts:108-200 | reconciling keeps the invariant and never raises |
| SchedulerRuns.ProposalAccepted | v4/src/scheduler.ts:77-101 | with nothing claimed the compare-and-set accepts every proposal for a dispatchable issue |
| SchedulerRuns.DispatchTakesLeast | v4/src/scheduler.ts:76-101 | the tick claims the first dispatchable issue in dispatch order and no other |
| RunFates.RunningFate | v4/src/scheduler.ts:142-199 | one tick over a running issue: renewed from now if its session reports running; otherwise its claim is lost if and only if a deadline was hit or the claim is stale, into preservation-unknown exactly for a deadline that could not be cancelled, and else into the failure state with its exact retry |
| RunFates.HandedOverIsRenewed | v4/src/scheduler.ts:142-145 | a handed-over issue that keeps its claim is renewed by every tick |
| RunFates.TakesUrgentThenOldest | v4/src/scheduler.ts:259-266 | an idle tick takes the most urgent issue that may be started, of equally urgent ones the oldest, and none only if none may be started |
| RunFates.StartsOnTerms | v4/src/scheduler.ts:79-101 | what it starts runs under a claim for its next attempt, with its own contract, base, fence and identity, for the configured time from now |
| RunFates.PolicyDecides | v4/src/scheduler.ts:79-81 | a candidate outside the policies or without a usable name is not claimed, any other one that may be started is |
| RunFates.ChangedConfiguration | v4/src/scheduler.ts:112-126 | a claim whose identity no longer fits ends in preservation-unknown, one whose model is no longer allowed in failure |
| SchedulerRuns.TickKeeps | v4/src/scheduler.ts:68-102 | a tick keeps the invariant, moves issues only into five states, keeps all records, and raises only for a poisoned queue |
| CrashRecovery.PlainIdsUnambiguous | v4/src/identity.ts:25-30 | issue IDs without line breaks are unambiguous |
| CrashRecovery.RecoveryReachesRunning | v4/src/scheduler.ts:127-141 | an unexpired or already started claim is running under the same fence and records after one uncrashed tick |
| CrashRecovery.ExpiredClaimFails | v4/src/scheduler.ts:127-134 | otherwise the tick first gives the claim up, with the exact retry |
| CrashRecovery.CrashLeavesClaim | v4/src/scheduler.ts:202-238 | a crashed tick leaves one claimed issue with its claim in the tracker |
| CrashRecovery.CrashRestartRecovers | v4/src/scheduler.ts:68-102 | crash, wait, restart, tick: the issue runs under the crashed tick's claim |
| CrashRecovery.CrashPointsAreReached | v4/src/scheduler.ts:254-256 | a crash asked for at any of the three points happens whenever there is work |
| CrashRecovery.TickMakesProgress | v4/src/scheduler.ts:68-102 | a tick with nothing claimed starts the first dispatchable issue |
| SystemRuns.MoveKeepsEntry | v4/src/adapters.ts:131-157 | an outside transition never creates a claim, a retry or an attempt |
| SystemRuns.RunKeeps | v4/src/scheduler.ts:68-102 | the invariant holds along every disciplined run and records are only added |
| Uniqueness.TickGrows | v4/src/scheduler.ts:68-102 | a tick leaves at most one claim and one record per attempt, whatever the policy, the stored identities and the states of issues are |
| SystemRuns.RunGrows | v4/src/scheduler.ts:68-102 | the same along any run with any outside moves; records are only added |
| SystemRuns.WipIsOne | v4/src/adapters.ts:65-81 | at every point of every run, with any outside moves, at most one issue holds a claim |
| SystemRuns.OneSessionEver | v4/src/adapters.ts:220-240 | over any run an attempt has at most one session; in a disciplined run it is the one its identity prescribes |
| SystemRuns.OneWorkspaceEver | v4/src/adapters.ts:181-200 | the same for workspaces |
| SystemRuns.RetriesBounded | v4/src/adapters.ts:101-129 | without an outside unblock an issue is claimed at most maxAttempts times; attempts and retries stay within the limit |
| SystemRuns.FromEmpty | v4/src/scheduler.ts:68-102 | from the empty system on, in every run: at most one claim at any time, one session and one workspace per attempt ever; in disciplined runs at most maxAttempts claims in the whole life of an issue that nobody puts back to ready |
| InboxLog.NothingStranded | scripts/coordinator-inbox.py:171-181 | an unacknowledged item is available at once or exactly from its claim's expiry on |
| InboxLog.NoFactAcknowledgedUnseen | scripts/coordinator-inbox.py:333-336 | behind every acknowledgement: a binding of that very revision under the same token, and the publication of the cited status of that generation strictly after the claim's reading of the status file; before the binding if and only if the cited status stood in the file when the item was bound |
| InboxLog.QuietClaimMeansLater | scripts/coordinator-inbox.py:333-365 | with no such publication between the reading and the binding of the claim in question, the cited status was published after the binding |
| InboxLog.AcknowledgeableExactly | scripts/coordinator-inbox.py:399-425 | a claimed item can be acknowledged if and only if token, generation and a newer status fit and its revision is not zero |
| InboxLog.ZeroRevisionNeverAcknowledged | scripts/coordinator-inbox.py:419-422 | no item of revision zero is acknowledged in any history |
| InboxLog.AcknowledgedStays | scripts/coordinator-inbox.py:171-181 | an acknowledgement is final until a newer report |
| InboxLog.ReplaySound | scripts/coordinator-inbox.py:324-371 | in every history a claimed item carries a complete snapshot of its current revision and the claim list is ordered, duplicate-free and bounded |
| Inbox.PlanPermitted | scripts/coordinator-inbox.py:186-576 | every write of every command is permitted when it is made |
| InboxRuns.WeavingKeeps | scripts/coordinator-status.py:1526-1587 | statuses published between the steps of a command forbid none of its writes and change nothing else of what it leaves |
| InboxRuns.HistoryIsLawful | scripts/coordinator-inbox.py:186-576 | the history of any run of commands that die between any two writes, with statuses published between any two steps, is permitted |
| InboxRuns.EarlyStatusAcknowledges | scripts/coordinator-inbox.py:333-336 | a run of submit, claim and ack in which the acknowledging status was published before the item was bound |
| InboxRuns.AckExactly | scripts/coordinator-inbox.py:383-434 | the ack command acknowledges an item if and only if caller, claim, token, request and a newer status on file fit and the item's revision is not zero |
| InboxRuns.ZeroRevisionStuck | scripts/coordinator-inbox.py:419-422 | a run that submits revision zero, claims and publishes, after which no ack with any token and status acknowledges the item |
| InboxEffects.SubmitRefusedExactly | scripts/coordinator-inbox.py:250-288 | a report is refused if and only if the project has no authoritative coordinator, its checks fail, or it names a revision not above the one on file, the repetition judged first |
| InboxEffects.SubmitLeaves | scripts/coordinator-inbox.py:260-309 | no newer fact is swallowed: a report that differs or names a newer revision leaves an item with its fingerprint and a higher revision, without claim and acknowledgement, available at once, whatever state it was in; an identical one changes diagnostics only |
| InboxEffects.ClaimLeaves | scripts/coordinator-inbox.py:314-377 | a claim continues the own live one or begins a new one, binds items that can be claimed and nothing else, all of them unless the digest is full |
| InboxEffects.AckLeaves | scripts/coordinator-inbox.py:383-446 | exactly the requested items that the claim answers are closed, with the status cited; what is left stays in the claim, which ends when nothing is |
| InboxEffects.ReleaseLeaves | scripts/coordinator-inbox.py:503-529 | exactly the items under the token are given back, and the claim ends |
| InboxEffects.ReconcileLeaves | scripts/coordinator-inbox.py:534-576 | a lapsed claim gives back what it holds, and exactly the items of another generation are flagged |
| InboxEffects.PublishLeaves | scripts/coordinator-status.py:1523-1587 | the next status revision under the coordinator's generation, also on hold, and nothing else |
| InboxEffects.RefusedExactly | scripts/coordinator-inbox.py:314-529 | when claim, release, ack and adopt refuse |
| InboxFiles.InboxFiles.SubmitReport | scripts/coordinator-inbox.py:250-309 | coalesces, revises or refuses a report |
| InboxFiles.InboxFiles.ClaimDigest | scripts/coordinator-inbox.py:314-377 | the claim command with its reuse rule |
| InboxFiles.InboxFiles.BindFresh | scripts/coordinator-inbox.py:335-365 | the bounded loop over the directory |
| InboxFiles.InboxFiles.Acknowledge | scripts/coordinator-inbox.py:383-446 | the ack command |
| InboxFiles.InboxFiles.AdoptItems | scripts/coordinator-inbox.py:451-498 | the adopt command |
| InboxFiles.InboxFiles.ReleaseClaim | scripts/coordinator-inbox.py:503-529 | the release command |
| InboxFiles.InboxFiles.Reconcile | scripts/coordinator-inbox.py:534-576 | expiry of a lapsed claim, then the orphan flags |
| InboxFiles.InboxFiles.PublishStatus | scripts/coordinator-status.py:1523-1587 | authoritative or on hold, the revision counter goes up by one |
| InboxGuarantees.FreshClaimTakesFirst | scripts/coordinator-inbox.py:314-371 | a fresh claim binds exactly the first items up to the limit and changes nothing else |
| InboxGuarantees.AdoptionKeepsEvents | scripts/coordinator-inbox.py:465-494 | adoption keeps revision, payload and acknowledgements; the rest of the predecessor's items become claimable |
| InboxGuarantees.AdoptionIsIdempotent | scripts/coordinator-inbox.py:465-494 | a second adoption writes nothing |
| InboxGuarantees.AdoptionResumes | scripts/coordinator-inbox.py:465-494 | an adoption that died anywhere is completed by the next one |
| InboxGuarantees.EventTextInjective | scripts/coordinator-inbox.py:125-127 | reports share a key exactly when all six parts agree |
| HandOver.HandOverKeepsEvents | scripts/coordinator-registry.py:530-562 | accept-transfer followed by adopt makes every unacknowledged event of a predecessor other than the successor claimable, unchanged |
| HandOver.HandOverExactly | scripts/coordinator-inbox.py:464-472 | after an accepted transfer the events of the owner before are reached if and only if that owner is somebody else |
| HandOver.TransferKeepsExactly | scripts/coordinator-registry.py:498-562 | over any run: if and only if the command that opened the transfer named another session than its caller |
| HandOver.ClaimReachesExactly | scripts/coordinator-registry.py:145-183 | after a claim events of another generation are reached if and only if it names their addressee as predecessor, who is not the claimer |
| HandOver.ReachedExactly | scripts/coordinator-inbox.py:464-498 | which events of another generation the owner of a registry row can get by adopting |
| HandOver.OwnPastStaysBehind | scripts/coordinator-inbox.py:464-472 | in any run of registry and inbox, an event addressed to the owner under an earlier generation is neither re-addressed, acknowledged nor claimable while the owner stays |
| HandOver.SelfTransferStrands | scripts/coordinator-registry.py:498-562 | a run of five commands that leads there |
| Registry.CoordinatorRegistry.SessionProjects | scripts/coordinator-registry.py:67-84 | the conflict scan is empty exactly when no other project holds or awaits the session |
| Registry.CoordinatorRegistry.ClaimProject | scripts/coordinator-registry.py:145-183 | the record a claim writes, or refusal |
| Registry.CoordinatorRegistry.RenewLease | scripts/coordinator-registry.py:193-215 | renewal, quarantine and cure |
| Registry.CoordinatorRegistry.Begin | scripts/coordinator-registry.py:498-527 | opening a transfer |
| Registry.CoordinatorRegistry.Accept | scripts/coordinator-registry.py:530-562 | accepting it |
| Registry.CoordinatorRegistry.HoldProject | scripts/coordinator-registry.py:580-585 | hold |
| Registry.CoordinatorRegistry.ResumeProject | scripts/coordinator-registry.py:588-597 | resume |
| Registry.CoordinatorRegistry.QuarantineProject | scripts/coordinator-registry.py:125-130 | quarantine of a reporting violator |
| Registry.StepEffect | scripts/coordinator-registry.py:154-176 | generation rises by one exactly on an owner change or acceptance, and who may replace a live owner |
| Registry.RunsAreExclusive | scripts/coordinator-registry.py:62-84 | no session is owner or pending successor of two projects |
| Registry.GenerationsGrow | scripts/coordinator-registry.py:154-176 | generations never decrease and determine the owner |
| Registry.TransferWasOpenedByOwner | scripts/coordinator-registry.py:498-527 | every open transfer was opened by the owner of that generation |
| Registry.LiveOwnerGivesWayToItsSuccessor | scripts/coordinator-registry.py:530-562 | a live owner is replaced only by the session it named itself |
| Registry.HoldEndsExactly | scripts/coordinator-registry.py:513-523 | a hold ends if and only if the command is an authorized resume, a claim that is let through, or a renewal or transfer by an owner with a reporting violation |
| Registry.HoldLasts | scripts/coordinator-registry.py:580-597 | over any run a hold lasts until such a command |
| Registry.HoldEndsWithoutResume | scripts/coordinator-registry.py:513-523 | two runs in which a hold ends without a resume |
| RegistryEffects.ClaimExactly | scripts/coordinator-registry.py:145-183 | a claim is let through if and only if its session is admitted, live and not taken elsewhere and the project is without another live owner; and the record it leaves |
| RegistryEffects.RenewExactly | scripts/coordinator-registry.py:193-215 | whom a renewal quarantines, cures or leaves alone |
| RegistryEffects.BeginExactly | scripts/coordinator-registry.py:498-527 | when a transfer is opened, and what changes by it |
| RegistryEffects.AcceptExactly | scripts/coordinator-registry.py:530-562 | a transfer is accepted if and only if it is open for this session, which is admitted and not taken elsewhere, and no other generation than the current one is named |
| RegistryEffects.HoldResumeQuarantineExactly | scripts/coordinator-registry.py:580-597 | hold, resume and quarantine change the state and nothing else, under exactly these conditions |
| RegistryEffects.OpenTransferCompletes | scripts/coordinator-registry.py:530-562 | at every point of every run an open transfer can be accepted by its successor, whatever other projects did |
| RegistryEffects.TransferRoundTrip | scripts/coordinator-registry.py:498-562 | a transfer opened by the owner and not disturbed hands the project to the named successor under the next generation |
| IncidentRow.ObservedWithin | scripts/recovery-incident.py:642-665 | observing keeps the budget, reopening starts a new cycle |
| IncidentRow.MissingWithin | scripts/recovery-incident.py:666-682 | clearing keeps the budget |
| IncidentRow.ClaimWithin | scripts/recovery-incident.py:735-760 | a claim climbs one rung or escalates |
| IncidentRow.BudgetMeans | scripts/recovery-incident.py:704-712 | claims at most limit times revision; rotation only after wake-1 and wake-2 of the same cycle |
| IncidentEffects.StagesExactly | scripts/recovery-incident.py:701-712 | which incidents have the ladder of wake-1, wake-2 and rotation, and which limit |
| IncidentEffects.ObservedLeaves | scripts/recovery-incident.py:629-665 | observing an incident loses nothing but a pending clearing, a claim or cooldown that ran out, and a resolution |
| IncidentEffects.LastCounts | scripts/recovery-incident.py:627-629 | of several observations of one incident the last is kept |
| Incidents.IncidentFiles.DetectConditions | scripts/recovery-incident.py:622-680 | the two loops of detection |
| Incidents.IncidentFiles.ClaimOne | scripts/recovery-incident.py:735-760 | claim with all its refusals |
| Incidents.IncidentFiles.ActOn | scripts/recovery-incident.py:762-795 | heartbeat, resolve, defer, escalate |
| Incidents.IncidentFiles.ClaimController | scripts/recovery-incident.py:797-814 | take-over of the controller lease |
| Incidents.IncidentFiles.HeartbeatController | scripts/recovery-incident.py:816-828 | renewal under the hard cap |
| Incidents.IncidentFiles.ReleaseController | scripts/recovery-incident.py:830-835 | release by the owner only |
| Incidents.BudgetHolds | scripts/recovery-incident.py:622-795 | the budget over all histories |
| Incidents.LeaseHasTenure | scripts/recovery-incident.py:797-828 | every lease stems from one take-over and never reaches past its maximum runtime |
| Incidents.TenuresDisjoint | scripts/recovery-incident.py:719-828 | after any take-over, whatever takes effect is done by a controller that took over then or later |
| Incidents.LiveLeaseExcludes | scripts/recovery-incident.py:797-814 | while a lease is in force another controller gets in if and only if it was taken under a blank session name |
| Incidents.TakeOversApart | scripts/recovery-incident.py:797-814 | otherwise a take-over of an unreleased lease comes only when that lease no longer lets its controller act |
| Incidents.BlankSessionIsTakenOver | scripts/recovery-incident.py:807-808 | two calls after which two controllers hold a lease in force |
| Incidents.ActionsInsideTenure | scripts/recovery-incident.py:719-795 | every effective action lies in its controller's live tenure and, except a claim, under its own unexpired claim |
| IncidentEffects.ClaimExactly | scripts/recovery-incident.py:735-760 | a claim takes effect if and only if controller, lease, switch, state and cooldown allow it, and holds the incident for the time asked for, or escalates it when the budget is spent |
| IncidentEffects.ActExactly | scripts/recovery-incident.py:762-795 | the same for heartbeat, resolve, defer and escalate |
| IncidentEffects.LeaseExactly | scripts/recovery-incident.py:797-828 | when a controller takes over or renews, and until when it then holds the lease |
| IncidentEffects.ResolvedOnlyThen | scripts/recovery-incident.py:666-682 | over any run an incident becomes resolved only by its controller or after clearConfirmMs of detections that all missed it |
| IncidentEffects.ResolvedThen | scripts/recovery-incident.py:666-682 | and a detection does resolve it then |
| AdmissionReceipt.DeliveryIsBound | scripts/recovery-admission.py:768-785 | helper of the cycle: an accepted delivery answer is bound to envelope and message ID |
| AdmissionReceipt.InspectionIsBound | scripts/recovery-admission.py:817-835 | helper of the cycle: the same for an inspection |
| AdmissionReceipt.ReceiptExactly | scripts/recovery-admission.py:719-749 | a receipt is valid if and only if it names workspace, target, scope and message of the envelope and its content, or an older one where that is allowed |
| AdmissionReceipt.ProofExactly | scripts/recovery-admission.py:752-765 | what exactly proves consumption |
| AdmissionReceipt.SessionExactly | scripts/recovery-admission.py:788-814 | which inspected sessions make sense |
| AdmissionReceipt.DeliveryExactly | scripts/recovery-admission.py:768-785 | which delivery answers are accepted and which are retried |
| AdmissionReceipt.InspectionExactly | scripts/recovery-admission.py:817-833 | which inspections are accepted, and that only silence is retried |
| AdmissionReceipt.RecoveryExactly | scripts/recovery-admission.py:934-965 | a recovery counts if and only if the server names the message and moves the processing generation forward, or proves consumption |
| Admission.AdmissionFile.Repair | scripts/recovery-admission.py:858-931 | the one repair of a stale revision, recorded before it is requested: which answers end it, and that success means redelivery and a current inspection |
| Admission.AdmissionFile.FirstDelivery | scripts/recovery-admission.py:1122-1147 | the first delivery of a prepared envelope: what each answer stores, asks and returns |
| Admission.AdmissionFile.Judge | scripts/recovery-admission.py:1199-1226 | deadline, one recovery, block: what each session stores, asks and returns |
| Admission.AdmissionFile.ProcessCycle | scripts/recovery-admission.py:1039-1226 | every state written is sound and linked; an outstanding cycle goes on as specified, a consumed one is woken again if and only if quota and quiet period allow, what is for another target is blocked, and a block for the same target makes no request |
| AdmissionOutcome.ProofCloses | scripts/recovery-admission.py:1149-1163 | an inspection with proof ends in the consumed state with that receipt and its time, exit code 0 and no further request |
| AdmissionOutcome.DeadlineExactly | scripts/recovery-admission.py:1199-1226 | an unchanged batch and an unconsumed, current receipt block the cycle if and only if the session has been idle up to the deadline or is stuck and was already recovered; a stuck session not yet recovered gets exactly one recovery; anything else stays pending |
| AdmissionOutcome.UnsettledKeeps | scripts/recovery-admission.py:858-931 | a failed inspection leaves the cycle as it was, and a stale receipt is repaired under exactly these conditions |
| AdmissionOutcome.ChangeIsSentOn | scripts/recovery-admission.py:1165-1178 | newer incidents go out under the same message ID, and what comes of each answer |
| AdmissionOutcome.FirstInspection | scripts/recovery-admission.py:1349-1366 | how the first inspection ends a tick: proof closes the cycle, a refusal blocks it, silence leaves it for the next tick |
| AdmissionOutcome.SentIsSound | scripts/recovery-admission.py:1122-1136 | what a first delivery puts on record, and that the deadline counts from the server's time of delivery |
| Admission.AdmissionFile.Tick | scripts/recovery-admission.py:1244-1366 | one target's tick behind kill switch, probe, target and capability checks: what each leaves, and a block for the same target stays a block, without a request, if and only if the probe does not fail or its budget is spent |
| Admission.AdmissionFile.ProbeFailsOnce | scripts/recovery-admission.py:1286-1296 | for every blocked or outstanding state with probe budget left: one failed probe and one clear tick end in a new delivery that knows nothing of the message, recovery and repair before |
| AdmissionHistory.ProbesEndInBlock | scripts/recovery-admission.py:968-978 | failed probes in a row end in a block exactly when they reach the limit, and a later failure does not lift it |
| Admission.AdmissionFile.Run | scripts/recovery-admission.py:1244-1366 | any number of ticks write one chain of sound, linked states |
| AdmissionHistory.OneMessagePerCycle | scripts/recovery-admission.py:1039-1226 | a stored message is given up only after proof, a deferred probe, or a block that another target supersedes; until then message ID, target, scope and workspace stay, and recovery and repair are not forgotten |
| AdmissionHistory.GivenUpWithReason | scripts/recovery-admission.py:1050-1113 | a message that is no longer stored was given up at a moment where one of the three reasons is on record |
| AdmissionHistory.RewakesBounded | scripts/recovery-admission.py:1092-1107 | as long as target and condition stay, at most maxRewakes cycles follow one another, each a quiet period after the proof of the one before |
| AdmissionHistory.RewakesSpan | scripts/recovery-admission.py:1099-1104 | so they span a quiet period for each re-wake, if no proof is dated before its cycle was prepared |
| AdmissionHistory.RewakeCountBounded | scripts/recovery-admission.py:1099-1105 | no stored state counts more re-wakes than the limit |
| AdmissionHistory.QuietCountsFromProof | scripts/recovery-admission.py:1099-1101 | the quiet period of a consumed cycle counts from the proof |
| AdmissionHistory.SameTargetExactly | scripts/recovery-admission.py:1019-1024 | what tells two targets apart |
| AdmissionHistory.ConsumedIsProven | scripts/recovery-admission.py:752-765 | a persisted consumed state holds a receipt for its own target, generation, scope, message and content |
| DependencyCheck.Visitor.Visit | scripts/coordinator-status.py:1187-1198 | the recursive visit yields an order or a real cycle that starts at the story it names |
| DependencyCheck.CheckEdges | scripts/coordinator-status.py:1180-1186 | self and unknown dependencies |
| DependencyCheck.CheckDependencies | scripts/coordinator-status.py:1180-1200 | accepts if and only if a topological order exists, reports a cycle if and only if there is one, and names a story on it |
| DependencyCheck.OrderExcludesCycle | scripts/coordinator-status.py:1187-1200 | an order excludes every cycle |
| ProcessTree.Index | scripts/worker-lease.py:228-232 | child lists in listing order and the last time per pid |
| ProcessTree.SumIsSeconds | scripts/worker-lease.py:229-243 | adding up the recorded times is adding up the seconds of the last row of each process |
| ProcessTree.WalkTree | scripts/worker-lease.py:235-245 | the stack walk adds up the seconds of the last row of exactly the descendants, each once, and terminates |
| ProcessTree.ProcessTreeCpuSeconds | scripts/worker-lease.py:215-245 | the whole answer, in terms of the rows and their seconds, including both fallbacks |
| ProcessTree.TreeTimeUnique | scripts/worker-lease.py:215-245 | the specified answer is unique |
| ProcessTree.EdgeIsRow | scripts/worker-lease.py:228-232 | a process is a child of another if and only if some row of the listing says so |
| JsonRecord.ParsePrintedObject | v4/src/craft-adapter.ts:160-162 | a printed record parses back, whatever its texts contain |
| DirectiveLedger.OwnerDirectiveLedger.Append | v4/src/ledger.ts:21-46 | the rules of append; list and index agree and only grow |
| DirectiveLedger.OwnerDirectiveLedger.Get | v4/src/ledger.ts:48-50 | lookup agrees with the list |
| DirectiveLedger.CanonicalInjective | v4/src/ledger.ts:17-19 | equal canonical text means equal entry |
| DirectiveLedger.RefusedExactly | v4/src/ledger.ts:21-46 | an append is refused if and only if a text is blank, the acknowledgement is not within a minute of the receipt, or the ID already stands for something else |
| DirectiveLedger.SpacesOfAscii | v4/src/ledger.ts:26-32 | which characters below 128 count as blank |
| DeskNotes.BlocksWithinMarkers | v4/src/craft-adapter.ts:164-169 | there are never more blocks than markers |
| DeskNotes.BlocksWithinOpeners | v4/src/craft-adapter.ts:164-169 | never more blocks than markers that end their line |
| DeskNotes.BlocksConcat | v4/src/craft-adapter.ts:164-182 | blocks of balanced notes are found whatever follows on a new line |
| DeskNotes.TrimHarmless | v4/src/craft-adapter.ts:399-404 | trimming loses no block |
| DeskNotes.OneBlock | v4/src/craft-adapter.ts:157-162 | a printed block is one block with exactly its text |
| DirectiveDesk.ProjectDesk.LoadDirectives | v4/src/craft-adapter.ts:433-443 | loading appends the records in order and stops at the first refusal |
| DirectiveDesk.ProjectDesk.IngestOwnerDirective | v4/src/craft-adapter.ts:346-419 | one ingest, including writes that are followed by a failure |
| DirectiveDesk.ProjectDesk.ProjectToDesk | v4/src/craft-adapter.ts:421-431 | one projection |
| DeskRecords.StoreAddsRecord | v4/src/craft-adapter.ts:399-404 | storing adds exactly the new record if and only if its line and record are marker-free; a marker in the record makes the notes unreadable |
| DeskRecords.ProjectKeepsRecords | v4/src/craft-adapter.ts:421-431 | a projection keeps the records if and only if its text is marker-free |
| DirectiveDesk.LoadIsExact | v4/src/craft-adapter.ts:433-443 | loading readable notes makes the ledger equal to their records, in order |
| DirectiveDesk.IngestOnHealthy | v4/src/craft-adapter.ts:346-419 | an ingest that writes leaves notes that load if and only if the directive is storable, and then with exactly one more record; otherwise no load ever succeeds |
| DeskAnswers.RepeatExactly | v4/src/craft-adapter.ts:356-371 | a known ID succeeds if and only if the call comes from the owner's desk and all five fields agree with the record, and writes nothing |
| DeskAnswers.NewExactly | v4/src/craft-adapter.ts:372-419 | when a new directive is written, when it succeeds, and that the record keeps its five fields and the time of acknowledgement |
| DeskAnswers.RepeatAfterIngest | v4/src/craft-adapter.ts:346-371 | a directive that was taken is taken again under the same five fields and under no other |
| DeskAnswers.WriteAcknowledges | v4/src/craft-adapter.ts:387-404 | the notes written keep the old ones and name directive and acknowledgement after them |
| DirectiveDesk.RoundTrip | v4/src/craft-adapter.ts:157-182 | over any run whose projections are marker-free and whose directives, if they come to be written, are storable, the notes parse to records that only grow, and loading yields exactly them |
| DirectiveDesk.UnreadableForGood | v4/src/craft-adapter.ts:433-443 | unreadable notes never change again, and every later ingest and projection fails |
| DirectiveDesk.ReadableExactly | v4/src/craft-adapter.ts:346-443 | after any run with marker-free projections the desk loads if and only if no directive that is not storable was written |
| DirectiveDesk.TwoSpoil | v4/src/craft-adapter.ts:399-418 | a directive that quotes the marker and one with a blank ID, after which no call ever succeeds |
| MarkerFreeText.StorableMeans | v4/src/craft-adapter.ts:157-182 | a directive is storable if and only if its own texts and acknowledgement line are marker-free and the ledger accepts it |
| MarkerFreeText.AckLineMarkers | v4/src/craft-adapter.ts:387-398 | no marker straddles the two IDs of an acknowledgement line |
| MarkerFreeText.DigestedStorable | v4/src/craft-adapter.ts:387-404 | a directive acknowledged under a digest is storable if and only if the ledger accepts it and its own texts are marker-free |
| MarkerFreeText.MarkersEscaped | v4/src/craft-adapter.ts:160-162 | escaping neither hides nor creates a marker |

## Left out

- IssueLedger.HydrateCore: takes the gate value as fixed per issue and leaves out the gate and pull-request checks after the fold, which belong to the board.
- LedgerAdapter.IssueComments.CallAdapter: leaves out the shared-fence calls around a claim, the board projection after a commit and the second readback.
- DispatchOrder.SortSorted: orders identifiers by code point, not by locale.
- Scheduler.DeterministicScheduler.RunTick: leaves out the optional `reconcileStartup` call, which the in-memory tracker does not have.
- InboxFiles.InboxFiles.ClaimDigest: the loops of this class run without a publication in between; what publications do to any command is in `InboxRuns`.
- InboxFiles.InboxFiles.SubmitReport: the sender, lease and session checks are one boolean input; subject and evidence are part of the fingerprint.
- InboxFiles.InboxFiles.Reconcile: one project; the source loops over all of them.
- InboxFiles.InboxFiles.PublishStatus: the checks of the declared status are one boolean input.
- Admission.AdmissionFile.Tick: which batches a tick has, and what its checks find, are inputs; a state file that cannot be read is not modelled.
- Admission.AdmissionFile.Run: the same, since it repeats Tick, for one target.
- GitHub transport, paging, comment IDs, author checks, ISO dates, project board projection and its readback: the comment log is a sequence whose positions are the IDs.
- `tryClaim` releases the fence when the projection fails after the commit; unconditional global work in progress of one is therefore not claimed for the comment ledger.
- Board contradictions between the state label and the log, and `reconcileStartup` of the comment ledger.
- The text of material events and of thrown errors: an event is its state and time, an error its kind.
- The tracker's global one-claim guard in the refinement: it is the shared fence's task there.
- Heartbeat and expiry times in the refinement, where ledger and in-memory tracker differ by design.
- Concurrent scheduler processes: one tick is one step, with crashes inside it; the answer of a session cancellation is an input.
- The model-policy pattern and the budget table: sets in the scheduler configuration.
- Inbox listing, report and wake observations.
- Registry reporting policy, manifests, worktree adoption of children, rotation metrics and lease times: inputs or omitted.
- `drain_order`, condition collection, severity and summaries of recovery incidents; the texts of evidence.
- The moment at which recovery commands read the clock: they do so before they wait for the lock, whereas here the clock never goes back from one command to the next.
- Floating-point rounding of CPU seconds: times are real numbers.
- The other checks of a product increment around the dependency check.
- Directive records printed by other programs (other key order, spaces, extra keys), session-store checks of the desk (inputs), and a session store that keeps something else than it was given: a failed read-back refuses the call but leaves the notes as written; blocks whose text spans lines are not produced by this writer.
- Release closure, worktree garbage collection, reapers, certificates, credential patterns and reports: independent checks or I/O that would add only easy members.
