# CodeConductor: a model of its protocols and of its decision code

CodeConductor is a crash-tolerant control plane for coding jobs. Jobs wait in a queue; a dispatcher that owns a lease
reserves, claims and launches attempts; attempts run workers in worktrees and leave evidence; a reconciler repairs what
crashes leave behind. All of it rests on a few file-system steps. This project models that core in Dafny 4.11 and proves
what it promises.

`dafny verify dfyconfig.toml` checks everything.

## How it is built

Protocols in which processes interleave are state machines whose actions are single file-system or record steps. `Apply`
is total (an action that is not enabled changes nothing), so a lemma about `Run(s, actions)` for every `actions` is a
statement about every interleaving, every crash point and every length of run. Code that works step by step inside one
process is a method or a class with loops, proved equal to a function of the state it started from; what is promised is
then proved about that function. Pure code is functions.

| module | models |
|---|---|
| `Lease`, `LeaseProgress`, `LeaseRuns` | dispatcher lease, dead-owner recovery, recovery mutex, owner quarantine; what each call achieves; runs that show what each condition is for |
| `RevisionNames`, `Journal` | revision directory names; the journal of one record with its lagging projection |
| `Dispatch` | queue items, attempts, dispatcher, clients, worktree removal, crashes and startup recovery as one protocol |
| `DispatchSafety`, `DispatchResults`, `DispatchProgress` | the invariant of that protocol, what follows for every run, and what its calls achieve when nobody interferes |
| `DispatchPaths`, `DispatchOverlap` | continuations and runs that break these results where their conditions fail |
| `StartupRecovery`, `DispatchPass`, `Dispatcher` | startup recovery and one dispatch pass as functions and as methods, and their place in the protocol |
| `Launch` | claim, launch, recovery and cancellation of one attempt at read and commit granularity |
| `Execution` | the execution of a launched attempt |
| `Cleanup`, `WorkspaceCleanup` | cleanup records; what ends an attempt's process trees, external resources and worktree, after its execution, on request and in recovery |
| `Completion`, `Reconciler`, `Offers`, `Repair`, `ApplyOnce` | projection of attempts onto items, inspection, which issues and repairs a situation calls for, repairs, and repeated application of one approved repair |
| `Lineage` | collection of the contributions an attempt builds on |
| `Graph` | the dependency check, the topological order and the enqueue loop |
| `Canonical`, `Inventory`, `Packet` | canonical JSON, the inventory of an attempt directory, review packets |
| `Provider`, `ProviderRun` | cost arithmetic and the provider request loop |

## What was found

Some statements one would expect hold only under a condition. Each has a lemma that gives the condition and a lemma
that shows the failure without it.

- The recovery mutex admits two live callers if a process releases the mutex and exits between another caller's read
  of the owner file and its liveness probe, both on one host. It is exclusive if no process dies while such a read is
  outstanding (`Lease.MutexExclusive`). Conversely, in every reachable state in which a process is about to die with
  such a read outstanding, and a third caller is inside the mutex or about to take it while it is free, the death has
  a continuation with two callers inside (`LeaseRuns.UnsafeDeathBreaksMutex`); such states are reachable
  (`LeaseRuns.UnsafeDeathReachable`).
- The dispatcher lease is exclusive if renaming a directory onto an existing one always fails, or if deaths are safe
  in the sense above (`Lease.LeaseExclusive`). Where a rename replaces an empty directory, as POSIX allows, unsafe
  deaths break it: two quarantiners inside the mutex share one evidence name, the directory that the first one moved
  there is empty, and the second one moves a live owner's directory onto it (`LeaseRuns.EmptyRenameBreaksLease`).
- Owner quarantine must wait for the initializer to be gone: in every reachable state with a lease-less lock directory
  whose creator is alive, quarantine has a continuation with two lease holders
  (`LeaseRuns.CarelessQuarantineBreaksLease`).
- Startup recovery is not serialised with submissions. If `submit` dispatches while recovery is still running, an item
  can end up queued while an attempt of its job is claimed (`DispatchOverlap.OverlapBreaksExclusion`). What does the
  harm is recovery's projection of a finished attempt onto an item that meanwhile names another attempt which is live,
  or which an execution has read and can still claim. All results of `DispatchResults` hold for every run, overlapping
  or not, in which no projection meets such an item; from any state in which one does, exclusion breaks within one
  more step (`DispatchOverlap.UnsafeFinishBreaksExclusion`). If submissions wait for `start`, no projection ever does
  (`DispatchResults.NoOverlapIsSafe`).
- Cleanup is checked before a requeue, and the owner may ask for a worktree's removal between the check and the queue
  update, which registers a new requirement. The attempt's cleanup is then safe at the requeue if and only if no
  removal begun since is still unproven (`DispatchResults.RequeueIsSafe`); a removal in between breaks it wherever
  there is a worktree to remove (`DispatchOverlap.RemovalBreaksRetry`, `DispatchOverlap.RemovalBreaksRecovery`,
  `DispatchOverlap.RemovalDuringRetry`).
- Revision directories are visible to readers exactly below revision 10^12 (`RevisionNames.VisibleBelowLimit`).
- The attempt inventory turns backslashes into slashes, so on a file system that allows backslashes in names two
  different trees can have the same inventory (`Inventory.BackslashConfuses`). Without such names the inventory
  determines the tree.
- The cost estimate bounds a request exactly if neither cache rate exceeds the uncached rate
  (`Provider.EstimateBoundsIffRates`). With a long-context tier the preflight check keeps runs within their cost
  budget, whatever the rates, exactly if the tier leaves output prices alone and neither raises input prices nor
  lowers them so far that one token beyond the threshold costs less than the threshold
  (`ProviderRun.GuaranteesIffTierHarmless`); a doubled input price breaks a budget with two requests
  (`ProviderRun.LongContextBreaksBudget`). For a single card there is no such condition on the tier alone, because
  rounding can hide a surcharge (`ProviderRun.RoundingHidesSurcharge`).
- Canonical JSON ignores key order only if key comparison separates different keys (`Canonical.TiedKeysDiffer`).

## Assumptions

File-system steps (exclusive mkdir, directory rename, atomic file replace, read) are atomic. A rename onto a non-empty
directory fails; whether one onto an empty directory fails is a parameter of `Lease` (`strict`). Hashes are injective,
random identities are fresh, directory times identify a directory's state, process liveness goes from alive to dead
once. Clocks play no part. Key comparison in canonical JSON is a strict total order unless a lemma says otherwise.

Some fields exist only for the proofs and no step of a program reads them: the leases granted so far, the values a
record has had, whether an attempt was launched. Who created a lock directory is consulted in one place, the rule that
a careful owner approves quarantine only once that process is gone; it stands for what the owner verifies outside the
program. That an attempt which was never launched has nothing to clean up is not assumed: requirements are registered
only past the preparing commit, and `DispatchResults.NeverLaunchedIsClean` derives it.

Where a record is updated, the model uses the compare-and-swap that module `Journal` proves the journal to be.

## Model

| member | source | states |
|---|---|---|
| `Lease.LeaseExclusive` | src/queue/queue-store.ts:229-320 | over every interleaving of acquire, renew, release, crash, recovery and quarantine, at most one live caller has the lease, it is the lease on disk and the newest grant, and the identity check after the release rename never fails; provided that renames never replace an existing directory or that deaths are safe |
| `Lease.GenerationsIncrease` | src/queue/queue-store.ts:745-773 | generations of granted leases strictly increase over every such run |
| `Lease.LiveOwnerStays` | src/queue/queue-store.ts:687-743 | in every such run no step of anyone else moves or changes the lock directory of a live creator, however late a recoverer runs |
| `Lease.MutexExclusive` | src/queue/queue-store.ts:556-685 | at most one live caller is inside the recovery mutex if no process dies after releasing a mutex that another caller on its host has read and not yet probed |
| `LeaseProgress.DeadLeaseIsRecovered` | src/queue/queue-store.ts:513-543 | from every reachable state a caller that finds a dead owner's lease on its own host, with the recovery mutex free or left by a dead process, moves the old directory to its evidence place and gets the lease with a higher generation |
| `LeaseProgress.FreeLeaseIsGranted` | src/queue/queue-store.ts:231-269 | from every reachable state without a lock directory a caller gets the lease with the next generation |
| `LeaseProgress.OwnedLeaseIsRefused` | src/queue/queue-store.ts:245-256 | a lease whose owner is alive or on another host makes the call end and change nothing |
| `LeaseProgress.InitializingLeaseIsRefused` | src/queue/queue-store.ts:245-256 | so does a lock directory without a lease |
| `LeaseProgress.HeldMutexRefuses` | src/queue/queue-store.ts:556-607 | a recovery mutex of a live process or of another host holds recovery of a dead lease back |
| `LeaseProgress.QuarantineFrees` | src/queue/queue-store.ts:451-505 | owner quarantine of a lease-less directory whose creator is gone leaves no lock and the directory as evidence |
| `LeaseProgress.ReleaseFrees` | src/queue/queue-store.ts:292-320 | a release leaves no lock directory |
| `LeaseProgress.RenewalKeepsLease` | src/queue/queue-store.ts:266-290 | a renewal rewrites the heartbeat and keeps identity, generation and owner |
| `LeaseProgress.FailedAcquisitionFrees` | src/queue/queue-store.ts:255-263 | an acquisition that fails half-way removes the directory it made |
| `LeaseRuns.UnsafeDeathBreaksMutex` | src/queue/queue-store.ts:588-643 | in every reachable state with such a read outstanding and another caller inside the mutex or about to take it while it is free, the death has a continuation with both callers inside |
| `LeaseRuns.UnsafeDeathReachable` | src/queue/queue-store.ts:556-685 | from every start with four callers a run reaches two live callers inside the mutex |
| `LeaseRuns.CarelessQuarantineBreaksLease` | src/queue/queue-store.ts:451-505 | in every reachable state with a lease-less lock directory whose creator is alive, a caller free to quarantine it and one free to acquire, a continuation gives two lease holders |
| `LeaseRuns.EmptyRenameDisplaces` | src/queue/queue-store.ts:687-743 | where a rename replaces an empty directory, two quarantiners of one lease-less directory inside the mutex let two callers hold the lease |
| `LeaseRuns.EmptyRenameBreaksLease` | src/queue/queue-store.ts:687-743 | there, from every start with six callers and with a careful owner, a run gives two lease holders |
| `RevisionNames.VisibleBelowLimit` | src/storage/transitions.ts:103-147 | a revision's directory name passes the reader's filter exactly below 10^12 |
| `RevisionNames.NameOrder` | src/storage/transitions.ts:103-147 | below the limit text order is numeric order, names are distinct and parsing undoes naming |
| `RevisionNames.LatestIsNewest` | src/storage/transitions.ts:118-122 | in any listing of revisions 1 to n with other names mixed in, the greatest matching name is revision n |
| `Journal.JournalIsCompareAndSwap` | src/storage/transitions.ts:50-101 | over every interleaving of readers, writers and crashes the journal holds exactly revisions 1 to n, each has one writer, each commit replaced exactly the value its writer expected, and the projection is a value the record has had |
| `Journal.ReadsAreCurrent` | src/storage/artifact-store.ts:330-352 | every read returns the value current when it listed the journal, and the projection is never ahead of what the reader then finds |
| `Journal.CommitsStoreWhatWasAsked` | src/queue/queue-store.ts:187-226 | in every run each commit is the work of the request its author is on: it replaces the value that request expected and stores the text it gave, at the next revision |
| `Journal.ReplaceAlone` | src/queue/queue-store.ts:187-226 | from every reachable state an undisturbed writer that expects the current value leaves its text as the current value, in the journal and in the projection |
| `Journal.ReplaceRefused` | src/queue/queue-store.ts:192-204 | an undisturbed writer that expects anything else changes nothing |
| `Journal.ReadAlone` | src/storage/artifact-store.ts:330-352 | an undisturbed reader returns the current value and changes nothing |
| `Completion.ProjectionMeaning` | src/queue/completion.ts:21-68 | the projected status is terminal; completed exactly for completed, eligible and clean; cancelled exactly for cancelled and clean; needs-input whenever cleanup is unresolved |
| `DispatchResults.OneLiveAttempt` | src/queue/dispatcher.ts:258-392 | over every run of dispatch, cancel, retry, removal, crash and restart at most one attempt of a job is claimed, preparing, running or verifying; it is the one its item names; a queued or dispatching item has none |
| `DispatchResults.CompletedItemsAreProven` | src/queue/dispatcher.ts:394-402 | a completed item records a completed, eligible attempt of its own job with safe cleanup, and that attempt still is completed and eligible |
| `DispatchResults.ParentsAreAccepted` | src/queue/dispatcher.ts:265-335 | every attempt was reserved with one accepted parent attempt per dependency, in order, in every reachable state |
| `DispatchResults.RetriesBounded` | src/queue/dispatcher.ts:460-490 | over any number of crashes and restarts the automatic retries of a job stay within its contract |
| `DispatchResults.StepsAreLegal` | src/queue/queue-store.ts:776-802 | every item update of every run follows the transition table, raises the revision by one and keeps the dependencies |
| `DispatchResults.RequeueIsSafe` | src/queue/dispatcher.ts:215-238 | whenever a step puts an item back to queued, the attempt it named is finished and no attempt of the job is live, and that attempt's cleanup is not required or proven if and only if no worktree removal begun since the check is still unproven |
| `DispatchResults.NeverLaunchedIsClean` | src/orchestrator/conductor.ts:665-677 | in every reachable state an attempt that never passed the preparing commit has no cleanup requirement and no worktree |
| `DispatchResults.NoOverlapIsSafe` | src/queue/dispatcher.ts:99-141 | if submissions wait for startup recovery, no projection by recovery ever meets an item with another attempt in flight |
| `DispatchProgress.JobCanComplete` | src/queue/dispatcher.ts:258-402 | from every reachable state in which nothing holds a queued job back a continuation dispatches it with its dependencies' accepted attempts as parents, runs its attempt and records its completion |
| `DispatchProgress.RetryRequeues` | src/queue/dispatcher.ts:215-238 | an undisturbed retry puts an ended item with a clean attempt back to queued without identity, attempt and completion, and refuses every other item |
| `DispatchProgress.CancelUnlaunched` | src/queue/dispatcher.ts:175-213 | cancelling a running item whose attempt was not launched withdraws the attempt and cancels the item |
| `DispatchProgress.CancelRefused` | src/queue/dispatcher.ts:175-213 | an item that has ended, or waits for an attempt that has not, is not cancelled |
| `DispatchProgress.FinishProjects` | src/queue/dispatcher.ts:378-402 | the execution that waits for an attempt records whatever end that attempt has |
| `DispatchProgress.ErrorFails` | src/queue/dispatcher.ts:380-391 | an error in an execution fails its item unless that was cancelled |
| `DispatchSafety.ApplyKeeps` | src/queue/dispatcher.ts:181-525 | every action of the protocol keeps the invariant behind these results, a projection by recovery if it meets nothing in flight |
| `DispatchOverlap.OverlapBreaksExclusion` | src/queue/dispatcher.ts:99-141 | a run in which a submission during recovery leaves an item queued while its second attempt is claimed |
| `DispatchOverlap.UnsafeFinishBreaksExclusion` | src/queue/dispatcher.ts:394-402 | from every reachable state a projection that meets an item with an attempt in flight has a continuation, of at most one more step, in which a live attempt is not the one its item names |
| `DispatchOverlap.RemovalBreaksRetry` | src/queue/dispatcher.ts:215-238 | wherever an item has ended with a clean attempt whose worktree exists, a removal that begins between the check and the update of a retry requeues the item with cleanup pending |
| `DispatchOverlap.RemovalBreaksRecovery` | src/queue/dispatcher.ts:460-490 | the same between recovery's check and its requeue |
| `DispatchOverlap.RemovalDuringRetry` | src/orchestrator/conductor.ts:814-882 | a run from the start that requeues an item while the removal of its attempt's worktree is pending |
| `StartupRecovery.CrashLeavesReadable` | src/queue/dispatcher.ts:404-414 | whatever run preceded it, a crash leaves a state in which recovery finds every record it reads |
| `StartupRecovery.BindAllEffect` | src/queue/dispatcher.ts:415-449 | the loop over dispatching items makes of each what its reservations call for and leaves everything else alone |
| `StartupRecovery.SettleAllRuns` | src/queue/dispatcher.ts:451-509 | the loop over active items is a run of the protocol and settles each: projection, requeue within budget with a finished and clean attempt, cancellation, or needs-input |
| `StartupRecovery.RecoveryRuns` | src/queue/dispatcher.ts:404-525 | recovery from any readable state is a run of the protocol that leaves no item dispatching, running or cancelling, leaves other items as they were and recovers every attempt that no item names |
| `StartupRecovery.RecoveryVerdict` | src/queue/dispatcher.ts:404-525 | what the whole recovery makes of each item, from the recorded attempts: a dispatching one is queued if its operation reserved nothing, bound if it reserved one, needs-input if several or the operation is unknown; an active one then is the projection of its finished attempt, requeued exactly if running, safe and within budget, cancelled exactly if cancelling and safe, otherwise needs-input |
| `Dispatcher.GroupAttempts` | src/queue/dispatcher.ts:405-413 | the loop groups exactly the listed attempts by operation, each once |
| `Dispatcher.Recoverer.RecoverFromEvidence` | src/orchestrator/conductor.ts:655-788 | recovery of an attempt over its own cleanup record is the step that the specified recovery takes, with the finding that the evidence gives |
| `Dispatcher.Recoverer.SettleItem` | src/queue/dispatcher.ts:451-509 | one active item and its attempt after the loop body |
| `Dispatcher.Recoverer.RecoverInterruptedItems` | src/queue/dispatcher.ts:404-525 | the method takes only steps of the protocol, ends with no interrupted item, changes no other item, changes attempts only as recovery leaves them, and equals the specified recovery |
| `DispatchPass.PassHandlesPrefix` | src/queue/dispatcher.ts:258-351 | the items dispatched or rejected for lineage are a prefix of the eligible items in queue order, all of them if the pass runs to its end; a full stop means exactly the maximum is active; only items with an already active execution are passed over |
| `DispatchPass.ActiveBounded` | src/queue/dispatcher.ts:290-348 | active executions never exceed the limit, whatever ends during the pass |
| `DispatchPass.PassAccounts` | src/queue/dispatcher.ts:291-347 | every handled item is bound to the attempt reserved for it, with its dependencies' attempts as parents and an active execution, or rejected for lineage, as the conductor answered; the returned count is the number bound |
| `DispatchPass.PassSettlesItems` | src/queue/dispatcher.ts:258-351 | after a pass every handled item is bound or rejected as answered, every other queued item with a dependency that ended otherwise than completed and without an execution active already is needs-input one revision higher, and everything else is as listed; the pass runs to its end exactly if it handled every eligible item; new attempts are those of handled items |
| `DispatchPass.PassReaches` | src/queue/dispatcher.ts:258-351 | every pass is a run of the protocol |
| `Dispatcher.QueueDispatcher.DispatchReady` | src/queue/dispatcher.ts:291-347 | the dispatch of one ready item: marked, reserved with its dependencies' attempts as parents and bound; or rejected for lineage; or left marked by an error |
| `Dispatcher.QueueDispatcher.DispatchAvailable` | src/queue/dispatcher.ts:258-351 | the method's effect is a run of the protocol, handles a prefix of the eligible items as the conductor answered and all of them exactly if it ran to its end, hands every item with a failed dependency to its owner, leaves all others as they were, returns how many it bound, and keeps active executions within the limit |
| `Launch.AtMostOneStart` | src/orchestrator/conductor.ts:225-292 | over every interleaving of launchers, recoverers, cancellers and crashes at most one claim and one start is committed, the start in the process that made the claim; only its author is ever past the preparing commit; statuses follow the table |
| `Launch.WithdrawnNeverStarts` | src/orchestrator/conductor.ts:655-677 | once an attempt was ended before its launch no execution ever passes the preparing commit |
| `Launch.OperationFixed` | src/orchestrator/conductor.ts:236-243 | the operation that reserved an attempt, or first claimed it, stays its operation in every run |
| `Launch.ForeignOperationNeverStarts` | src/orchestrator/conductor.ts:236-277 | calls made for other operations never claim or start an attempt, in whatever order they interleave |
| `Launch.ClaimAndLaunchStarts` | src/orchestrator/conductor.ts:225-292 | from every reachable state an undisturbed claim and launch for the right operation starts the attempt |
| `Launch.EndingEnds` | src/orchestrator/conductor.ts:655-677 | an undisturbed recovery or cancellation ends an open attempt, cancelled if it was not launched |
| `Execution.RunCommands` | src/orchestrator/conductor.ts:1896-1969 | the evidence is that of the commands up to the first that did not pass, and the phase status is decided by that command |
| `Execution.AttemptExecution.Prepare` | src/orchestrator/conductor.ts:930-965 | workspace and first record; throws exactly if one of its steps does |
| `Execution.AttemptExecution.Compose` | src/orchestrator/conductor.ts:967-1006 | ends as needs-input exactly if the baseline cannot be composed and that is recorded |
| `Execution.AttemptExecution.Setup` | src/orchestrator/conductor.ts:1008-1094 | goes on exactly if setup is not configured, or passed on a clean tree; otherwise throws, or ends cancelled or failed, each exactly when it should |
| `Execution.AttemptExecution.Work` | src/orchestrator/conductor.ts:1096-1248 | reaches verifying exactly if nothing threw, the proposal was captured and the worker exited with zero, uncancelled and in time |
| `Execution.AttemptExecution.Verify` | src/orchestrator/conductor.ts:1249-1360 | eligible exactly if scope, acceptance, patch stability and worker profile passed; the final status is decided by cancellation and deadline |
| `Execution.AttemptExecution.Execute` | src/orchestrator/conductor.ts:905-1411 | whatever the steps return or throw, the attempt ends terminal with finishedAt set, through allowed transitions; each status has its own condition over the steps: if one threw, cancelled exactly if aborted before the deadline and failed otherwise; needs-input exactly if the baseline cannot be composed; completed exactly if the worker succeeded and acceptance was not cut off; it is eligible if and only if no step threw and every check passed, and then completed |
| `Cleanup.SubjectKeyInjective` | src/contracts/cleanup.ts:92-112 | two subjects have the same key exactly if they are equal, whatever characters their ids hold |
| `Cleanup.LatestIsNewest` | src/contracts/cleanup.ts:99-108 | the backward search finds the observation after which the subject has no other, or none if there is none |
| `Cleanup.LatestEvidence` | src/contracts/cleanup.ts:99-108 | the loop over keys is the backward search over subjects |
| `Cleanup.DeriveStatus` | src/contracts/cleanup.ts:73-90 | the forward fold into a map gives the status defined by the backward search |
| `Cleanup.ProvenMeansAll` | src/contracts/cleanup.ts:73-90 | proven means that there are requirements and the newest evidence of each is a proof; safe means the latter |
| `Cleanup.WorkspaceRemovalSafe` | src/orchestrator/conductor.ts:1621-1640 | true exactly if the newest evidence of every requirement other than a workspace is a proof |
| `Cleanup.CleanupStore.RegisterRequirement` | src/storage/artifact-store.ts:219-250 | adds a new subject at the end or merges into the known one, and stores the derived status |
| `Cleanup.CleanupStore.AppendEvidence` | src/storage/artifact-store.ts:252-278 | refuses unregistered subjects, ignores repeated identities, otherwise appends and stores the derived status |
| `Cleanup.RegisterMeans` | src/storage/artifact-store.ts:219-250 | a registration sets the deadline, keeps the known guardian unless a new one is given, and leaves other requirements and the evidence as they were |
| `Cleanup.RecordStaysValid` | src/storage/artifact-store.ts:219-328 | after every sequence of registrations and observations subjects are distinct, evidence is for registered subjects and recorded once, and the stored status is the derived one |
| `Cleanup.RecordOnlyGrows` | src/storage/artifact-store.ts:219-328 | subjects and evidence of any moment are found at the same places at every later moment |
| `Cleanup.ProvenAllowsRemoval` | src/orchestrator/conductor.ts:1621-1640 | a clean record always allows removal; one that allows removal without being clean has an unproven workspace |
| `WorkspaceCleanup.Finalizer.CleanupExternalResources` | src/orchestrator/conductor.ts:1536-1619 | reports safe exactly if every active resource was proven gone before or has a clean command run, and then all are proven; otherwise the record is not clean; no requirement is lost and proven process trees stay proven |
| `WorkspaceCleanup.Finalizer.EndWorkspace` | src/orchestrator/conductor.ts:1381-1407 | after an execution the worktree is removed only when every other requirement's newest evidence is a proof and all active resources are proven gone; if it is not removed, the attempt is not clean |
| `WorkspaceCleanup.Finalizer.ReleaseExternalResources` | src/orchestrator/conductor.ts:790-812 | the check before a retry passes exactly if the attempt has ended and everything required is proven |
| `WorkspaceCleanup.Finalizer.StartRemoval` | src/orchestrator/conductor.ts:814-856 | a removal is tried only with every other requirement proven; it makes a clean record pending and changes nothing but the worktree's requirement if all resources were released |
| `WorkspaceCleanup.Finalizer.RemoveAttemptWorkspace` | src/orchestrator/conductor.ts:814-882 | on request the worktree is removed only for an ended attempt with every other requirement proven, and then the record says so; a removal that fails or is refused leaves the record unclean |
| `WorkspaceCleanup.Finalizer.SettleProcesses` | src/orchestrator/conductor.ts:678-758 | the process trees count as gone exactly if there are some, no unresolved guardian was alive at both probes, and each unresolved one was kernel-contained with its guardian gone |
| `WorkspaceCleanup.Finalizer.RecoverInterruptedAttempt` | src/orchestrator/conductor.ts:655-788 | safe-to-retry exactly if this call ended the attempt and, unless it was never launched, every requirement's newest evidence is a proof; a launched attempt is ended exactly if its process trees and resources are gone; its worktree is removed only if it was ended, is not retained and everything else is proven |
| `Reconciler.Inspect` | src/reconcile/runtime-reconciler.ts:565-898 | the loops with their lookup tables and the set of referenced attempts give exactly the specified reports and offered actions |
| `Reconciler.Index` | src/reconcile/runtime-reconciler.ts:579-590 | the two tables agree with searching the list of attempts |
| `Offers.OffersExactly` | src/reconcile/runtime-reconciler.ts:565-898 | the repairs offered are exactly those that the items, the recorded attempts and the lease call for: reset for leftovers or a dispatch that reserved nothing, quarantine for missing, foreign or ambiguous identity, bind for the one open attempt of the operation, synchronize for a finished attempt whose projection the item lacks, recover for an open attempt that no dispatching item is to be bound to; none while the queue has an owner that cannot be displaced |
| `Offers.IssuesExactly` | src/reconcile/runtime-reconciler.ts:565-898 | each kind of issue is reported about a job exactly if one of its items, or an open attempt that no item accounts for, is in that situation |
| `Offers.OneRepairPerItem` | src/reconcile/runtime-reconciler.ts:618-870 | at most one repair of its record is called for per item |
| `Repair.ClassifyOk` | src/reconcile/runtime-reconciler.ts:618-870 | with the lease absent and cleanup readable every report about an item offers an action derived from existing records, and there is a report exactly if the item has weight |
| `Repair.NoReportsIffZero` | src/reconcile/runtime-reconciler.ts:565-898 | nothing is reported exactly when the measure (item weights plus unfinished attempts) is zero |
| `Repair.RepairAcceptedAndLowers` | src/queue/queue-store.ts:804-841 | every offered action passes the queue store's check and, with a recovery ending its attempt, lowers the measure |
| `Repair.RepairingEnds` | src/reconcile/runtime-reconciler.ts:373-459 | no sequence of repairs is longer than the measure, and a sequence that no offered action can extend has left nothing to report |
| `ApplyOnce.AppliedAtMostOnce` | src/reconcile/runtime-reconciler.ts:187-278 | over any number of apply calls, other writers and crashes one approved queue action is committed at most once, over exactly the approved record |
| `ApplyOnce.CrashedApplyIsRecorded` | src/reconcile/runtime-reconciler.ts:485-541 | in every run, after the commit, however apply calls interleave and crash, the action stays committed once and any call that runs to its end leaves the result recorded |
| `ApplyOnce.FreshProposalIsApplied` | src/reconcile/runtime-reconciler.ts:187-278 | an undisturbed call of a proposal that the records bear out commits its mutation and records the result |
| `ApplyOnce.StaleProposalIsRefused` | src/reconcile/runtime-reconciler.ts:187-278 | a call of one that was recorded already, or that the records no longer bear out and show no effect of, changes nothing |
| `Lineage.BuildProposalLineage` | src/orchestrator/conductor.ts:523-578 | the method with its loops is the specified collection, with its error cases |
| `Lineage.BuildCovers` | src/orchestrator/conductor.ts:523-578 | a lineage that was built covers every given parent, holds every contribution of composed parents with the same binding, still binds, and is within the contribution and byte budgets |
| `Lineage.BuildsIff` | src/orchestrator/conductor.ts:523-578 | a lineage is built if and only if every parent is usable, no two disagree on a binding, what they bring in is within the budgets and all of it still binds; it then holds exactly that |
| `Lineage.ContributionsAreAncestors` | src/orchestrator/conductor.ts:523-578 | in every history the contributions of an attempt are exactly its ancestors, each once, every ancestor of a contribution before it |
| `Graph.ValidateGraph` | src/sources/compiler.ts:217-249 | accepts exactly the batches with unique ids, no missing dependency and no cycle |
| `Graph.Checker.Visit` | src/sources/compiler.ts:236-247 | a visit ends with the contract in a dependencies-first order, or with a cycle |
| `Graph.SortedStaysWellFormed` | src/sources/compiler.ts:97-104 | sorting an accepted batch leaves it accepted with the same index |
| `Graph.TopologicalOrder` | src/sources/service.ts:133-149 | terminates on every accepted batch with a permutation that puts dependencies first |
| `Graph.EnqueueAll` | src/sources/service.ts:63-92 | every contract is enqueued once, after its dependencies and with their job ids in order; the not-compiled-first error cannot occur |
| `Canonical.CanonicalIffEquivalent` | src/contracts/job.ts:215-233 | two JSON values have the same canonical text if and only if they are equal up to key order |
| `Canonical.PrintUnique` | src/contracts/job.ts:215-233 | plain JSON text followed by a delimiter can be read in one way only (sections 4, 5 and 7 of RFC 8259) |
| `Canonical.TiedKeysDiffer` | src/contracts/job.ts:224-226 | two keys that compare as equal make the text depend on their order |
| `Inventory.InventoryIffSameTree` | src/review/packet.ts:439-479 | for names without slashes and backslashes two inventories agree if and only if the trees agree on every path, in kind and contents |
| `Inventory.InventoryExistsIff` | src/review/packet.ts:439-479 | there is an inventory exactly if nothing but directories and regular files is found outside the packet itself |
| `Inventory.BackslashConfuses` | src/review/packet.ts:449-450 | two different trees with the same inventory |
| `Packet.ValidateBindings` | src/review/packet.ts:413-437 | true exactly if every bound file exists with the bound size and hash |
| `Packet.Validate` | src/review/packet.ts:144-190 | the method accepts exactly if schema, seal, reviewability, records, identity, bindings and inventory check out |
| `Packet.ReviewableStays` | src/review/packet.ts:192-302 | a state that agrees with a reviewable one on records, places and bound files is reviewable |
| `Packet.AcceptedIffAgree` | src/review/packet.ts:118-190 | a packet sealed from one state is accepted against another if and only if that one agrees on all records up to key order, their places, the bound files and the attempt tree |
| `Packet.SealDetermines` | src/review/packet.ts:134-156 | correct seals are equal exactly if the sealed contents are equal up to key order |
| `Provider.CostSubadditive` | src/contracts/provider-profile.ts:96-139 | without a long-context tier the rounded cost of a sum is at most the sum of the rounded costs |
| `Provider.CostIsPriceRoundedUp` | src/contracts/provider-profile.ts:96-139 | the cost is the exact price, with the tier's multipliers beyond the threshold, rounded up to the next micro-dollar |
| `Provider.EstimateBoundsIffRates` | src/contracts/provider-profile.ts:141-156 | the estimate bounds every request within its limits, whatever the limits, if and only if neither cache rate exceeds the uncached rate |
| `ProviderRun.PreflightGuarantees` | src/workers/openai-responses-runner.ts:552-566 | after a request that the preflight check let through the accumulated cost is within budget, for every card whose tier is harmless at its rates |
| `ProviderRun.TotalCostAtMostSum` | src/workers/openai-responses-runner.ts:666-677 | a run priced as a whole costs at most its replies priced one by one |
| `ProviderRun.GuaranteesIffTierHarmless` | src/contracts/provider-profile.ts:96-156 | the preflight check keeps every run within its cost budget at all rates if and only if the tier leaves output prices alone and neither raises input prices nor lowers them below what the threshold costs |
| `ProviderRun.RoundingHidesSurcharge` | src/contracts/provider-profile.ts:96-139 | a card whose tier doubles input prices and for which the guarantee still holds, by rounding |
| `ProviderRun.LongContextBreaksBudget` | src/contracts/provider-profile.ts:112-133 | with a doubled input price two requests that both pass the preflight check exceed a budget that the schema accepts |
| `ProviderRun.Run.Send` | src/workers/openai-responses-runner.ts:284-370 | retries count as requests and stay within the ceilings; a reply is the first success among the requests of the call |
| `ProviderRun.Run.Execute` | src/workers/openai-responses-runner.ts:178-281 | a run completes if and only if some number of requests completes it: each fails in passing with retries left or is let through, reported and within the ceilings, the last reply asks for no tool, those before did, and the calls fit their ceiling; every other end has its reason; all reported usage is accounted for; with a harmless tier or none, cache rates at most the uncached rate and replies within limits, the cost never exceeds the budget |

## Left out

- Process guardian, Windows Job host, Docker and Git calls: only their results appear, as parameters.
- Model-service start fence, control console, UI, MCP server, wake client, command line and scripts: plumbing around the core.
- Schema parsing, environment and executable lookup, worker adapters, prompt text, contract text extraction and specification intake: depend on libraries or are easy checks.
- Retention planning and path scope: single-branch classification, easier than the rest.
- Deadlines, resource sampling and polling delays: timing; where a signal is consulted its value is a parameter.
- A lease file that cannot be parsed: the lock directory either has a readable lease or none.
- The manifest's own marks of released resources: the cleanup evidence, which the code consults as well, decides.
- Storage errors inside attempt recovery other than an unreadable cleanup record: they abort the recovery of that attempt.
- `runUntilIdle` and the polling loop: no progress is claimed, since an exhausted attempt budget throws out of a pass.
- The checks on records that precede a review (eligibility, identities, fingerprints, artifact paths), and which files are bound for what purpose: parameters of `Packet` that ignore key order, fix the artifact places and bind every projection and profile file.
- Missing API key and invalid workspace in a provider run: both end the run before its first request.
- Launch.AtMostOneStart: does not model the in-process map of executions, which the commit makes unnecessary for this result.
- ApplyOnce.AppliedAtMostOnce: does not model the lease an apply call takes, nor the recovery action, which writes the attempt and not the queue.
- Execution.AttemptExecution.Execute: assumes that manifest updates the table allows succeed, as for an execution that is the only writer on working storage.
- Repair.RepairingEnds: assumes that each attempt recovery ends its attempt; one that stays blocked changes no status.
