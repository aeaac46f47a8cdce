# CertFlow control plane: a verified model

CertFlow keeps certificates issued, renewed and delivered. Its control plane is one Go store over
PostgreSQL, any number of worker processes, and an HTTP API. This project models the parts whose
correctness is not local to one function, and proves what they promise together.

**The durable job engine** (`Rows`, `Engine`, `Policy`, `System`, `Invariant`, `Preservation`).
Workers share one job table. They claim with a lease, run a handler, and complete, fail, retry or
park the job; any worker recovers another's expired lease. Each transaction is one atomic function
of the tables. `System` adds a clock and a set of workers that hold at most one claim each, and
`Preservation` proves a joint invariant for every step and every run. From it follow fencing and
lease exclusion (`EngineTheorems`), what each step writes (`StepEffects`), the life cycle of a row
(`Evolution`), attempt, change and backoff bounds (`Budget`), when a retried job can be claimed again
(`RetryTimes`), fairness (`Overtaking`), batch verdicts and counters (`RunTheorems`), which steps end,
reopen, shelve or strand a batch (`RunOutcomes`) and what an early approval does (`Approval`).
`Certificates` follows the certificate rows alone, `Joint` together with the engine, and
`CertStatuses` says which status every step of a joint history leaves.
`Histories` and `Scenarios` are runs from the empty system that reach the states the exact
conditions speak of.

**Insert paths** (`Fanout`, `FanoutTheorems`, `Scheduling`, `ManualRuns`, `DueScan`, `InsertPaths`).
Saving a version fans out to deployments and automation tasks; operators and the scheduler queue
issuances, renewals and runs of a task. All of these are shown to be insert steps of the engine, so its theorems hold through
them, and the fan-out is proved exact after every history.

**Task administration** (`TaskAdmin`, `TaskEffects`): links, targets and their cleanup, what each
transaction writes, and the work a paused or deleted task no longer starts.

**The mutable objects** (`Store.dfy`, `Worker.dfy`, `RealtimeHub.dfy`, and `CloudAssets.Processor`):
the store, the worker loop, the hub and the handlers as classes whose methods are proved against
the functions above. `Store.Store` is in module `Stores`, `Worker.Worker` in module `Workers`.

**The cloud-asset section** (`CloudAssets`, `RightCertificates`): handlers that race to create one provider certificate
under an advisory lock, as an interleaving machine in which the current version and the targets'
credentials move at any time; how often they upload, and that they end with the right certificate.

**The realtime stream** (`Realtime`, `Handoff`, `RealtimeHub`): subscription, bounded replay, live
queue, and exactly when the handoff between them is exact.

**Names and text** (`Names`, `Domains`, `ConsolePattern`, `ManualDns`, `CanonicalQuery`): wildcard
redundancy on the server and in the console, the console's name pattern, DNS zones, the records of manual validation, and the canonical text that
provider requests are signed over.

## What the proofs found

These are properties of the code as it is. Each has a lemma with the condition under which it
happens. The lemmas of `Histories` and `Scenarios` are runs from the empty system into it, and so are
`MovedVersionUploadsTwice`, `UpdateAdoptsDeletedCertificate`, `LongBacklogSkips` and `OutOfOrderSkips`
on their machines.

- The due scan never renews anything: its insert of the renewal passes seven arguments to a statement
  with six placeholders, which the driver refuses, so with a task due the scan fails and rolls back
  (`Stores.Store.QueueDueAutomationTasks`, `InsertPaths.OnlyManualRenewals`,
  `Scenarios.DueAndNeverServed`). The theorems of `DueScan` are those of the loop with the insert's
  six arguments.
- A batch run can stay `running` for ever although all its children are over, because neither lease
  recovery nor a cancellation nor a lost claim refreshes it; its task then refuses every manual run
  (`RunOutcomes.BecomesStuckIff`, `RunOutcomes.StuckForever`, `RunOutcomes.RefusedForever`;
  `Histories.CrashesLeaveRunStuck`, `Histories.LateReturnLeavesRunStuck`,
  `Histories.CancelledRetryLeavesRunStuck`).
- A batch run with a cancelled child and no failed one goes back to `queued` when the rest is done,
  and its task refuses every manual run until it is next updated (`RunOutcomes.BecomesShelvedIff`,
  `RunOutcomes.ShelvedUntilCancelled`, `Histories.WithdrawnSiblingShelvesRun`).
- A cancelled run can be reopened by a late MarkJobWaitingUser of a claim that has lost its lease
  (`RunOutcomes.CancelledReopensIff`, `Histories.CancelledRunCanReopen`).
- An approval that arrives between saving the challenge and parking the job strands the job for good,
  and blocks every later request for its certificate (`Approval.BecomesStrandedIff`,
  `Approval.StrandedForever`, `Approval.StrandedBlocksIssuance`, `Histories.StrandedIsReachable`).
- Updating a task between two attempts of its renewal leaves the certificate shown as renewing with no
  issuance at work (`Joint.RenewingDanglesIff`, `Scenarios.WithdrawnRenewalDangles`).
- A certificate can have two live issuances: a manual renewal looks at its own runs only
  (`DueScan.ManualRenewalIsAloneIff`, `Scenarios.ManualRenewalAddsSecondIssuance`).
- A handler that waited for the lock uploads once more when its certificate has moved to another
  version meanwhile (`CloudAssets.AtMostOnceUpload`, `CloudAssets.AtMostOnceWhileCurrent`,
  `CloudAssets.MovedVersionUploadsTwice`).
- `failed_jobs` does not count jobs failed in lease recovery until the next refresh
  (`RunTheorems.BatchCounters`, `Histories.CrashesLeaveRunStuck`).
- Updating a task can move it to a deleted certificate (`TaskAdmin.TaskCertificatesStayLiveIff`,
  `TaskAdmin.UpdateAdoptsDeletedCertificate`).
- The stream loses events when more than 100 are pending at subscription, and when ids commit out of
  order (`Handoff.LossFreeIsExactIff`, `Handoff.HandoffIsExactIff`, `Handoff.LongBacklogSkips`,
  `Handoff.OutOfOrderSkips`).

One point of the design rather than of its runs: fencing compares the owner only, which is enough
because a worker holds one claim at a time (`EngineTheorems.OwnerGuardIsAttemptGuard` for reachable
states, `EngineTheorems.OwnerGuardSufficesIff` for any).

Saving a version is not fenced by the lease, so issuance is at-least-once; the pointer theorems hold
for any order of saves.

## Conventions

Ids are natural numbers drawn from `nextId`, standing for random identifiers that never repeat; a
random idempotency key is the id of its row. Times are seconds on one clock. A transaction that rolls
back is `None`, or leaves the object as it was. Where a query may return rows in any order, or break
ties freely, the row or list is a parameter constrained by a predicate (`IsNext`, `ListsExpired`,
`IsLatestWaiting`, `IsJoin`, `IsPage`).

## Model

| member | source | states |
|---|---|---|
| `Preservation.RunKeeps` | apps/control-plane/internal/store/store.go:2820-2948 | Every run of the whole system (any number of workers, one clock) keeps the joint invariant of rows, executions, claims and runs. |
| `Preservation.StepKeeps` | apps/control-plane/internal/store/store.go:2711-3077 | The same for one step, whichever transaction it is. |
| `EngineTheorems.OwnerGuardIsAttemptGuard` | apps/control-plane/internal/store/store.go:2923-2933 | The `lease_owner` comparison passes if and only if the caller holds the newest claim of the job, same attempt and same execution. |
| `EngineTheorems.Fencing` | apps/control-plane/internal/store/store.go:2915-2948 | A finish of any kind changes one row and one execution at most, and only those of a claim that is still the newest. |
| `EngineTheorems.OwnerGuardSufficesIff` | apps/control-plane/internal/store/store.go:2923-2940 | Behind the owner guard a completion keeps the ledger iff the claim is of the current attempt, whether or not the state is reachable. |
| `EngineTheorems.OverlappingClaimsBreakTheLedger` | apps/control-plane/internal/job/worker.go:96-135 | Why the loop holds one claim at a time: with a second, older claim of the same worker, which no run produces, the guard would let the wrong attempt finish. |
| `EngineTheorems.LeaseExclusion` | apps/control-plane/internal/store/store.go:2820-2886 | Before its deadline a claim owns its row, and no other worker holds an unexpired claim on that job. |
| `EngineTheorems.ExecutionLedger` | apps/control-plane/internal/store/store.go:2854-2864 | As many executions as attempts, one per attempt; exactly one running iff the job runs, exactly one succeeded iff it succeeded. |
| `Preservation.StaleWaitOnlyRefreshes` | apps/control-plane/internal/store/store.go:1690-1708 | A MarkJobWaitingUser whose lease is lost changes no job and no execution. |
| `Engine.RecoveryIsOneUpdate` | apps/control-plane/internal/store/store.go:2749-2811 | The recovery loop, in whatever order rows are listed, is one simultaneous update of all expired rows. |
| `Evolution.StepChanges` | apps/control-plane/internal/store/store.go:2711-3077 | A job row changes only along seven kinds of transitions and never changes identity. |
| `Evolution.TerminalForever` | apps/control-plane/internal/store/store.go:2711-3077 | A succeeded, failed or cancelled row is never touched again, in any run. |
| `Evolution.CancelledNeverRuns` | apps/control-plane/internal/store/store.go:1237-1246 | Queued jobs withdrawn by a task update or deletion stay cancelled for ever. |
| `StepEffects.ClaimsIff` | apps/control-plane/internal/store/store.go:2828-2836 | An idle worker may claim a job iff it is queued, due and not asked to cancel, and no such job comes before it by due time and then by age. |
| `StepEffects.ClaimWrites` | apps/control-plane/internal/store/store.go:2837-2862 | A claim runs one job for fifteen minutes under the worker, opens the execution of the new attempt, and hands over what the row says. |
| `StepEffects.ClaimShowsRun` | apps/control-plane/internal/store/store.go:2876-2880 | A claimed job shows its queued run as running and touches no other run. |
| `StepEffects.FinishWrites` | apps/control-plane/internal/job/worker.go:114-175 | Under a held lease, handler result by handler result: the row the job is left with, its next time in seconds, and the record of the attempt; no other row and no other execution. |
| `StepEffects.FinishShowsRun` | apps/control-plane/internal/store/store.go:2952-3005 | A finish that gets through leaves the run of its job with the state, counters and end its jobs show; any other run, and every run after a finish that does not, stays. |
| `StepEffects.VerdictShows` | apps/control-plane/internal/store/store.go:2972-2987 | The switch: a job waiting for the user beats work in progress, which beats any result, and a failed job spoils the success of the others. |
| `StepEffects.RecoversIff` | apps/control-plane/internal/store/store.go:2718-2723 | Recovery may list any running jobs whose lease has expired, each once. |
| `StepEffects.RecoveryWrites` | apps/control-plane/internal/store/store.go:2754-2810 | It fails them with their last attempt, otherwise queues them for a minute later, closes their open executions, and touches nothing else. |
| `StepEffects.PresentWrites` | apps/control-plane/internal/store/store.go:1633-1648 | Presenting records opens the challenge of the job, or opens it again under its first time and certificate. |
| `StepEffects.ConfirmsIff` | apps/control-plane/internal/store/store.go:1671-1680 | An approval goes to a waiting challenge of the certificate that no other waiting one is younger than. |
| `StepEffects.ConfirmWrites` | apps/control-plane/internal/store/store.go:1680-1688 | It marks that challenge, and its job, if parked, is due at once. |
| `StepEffects.CancelWrites` | apps/control-plane/internal/store/store.go:1239-1246 | Row by row: queued jobs of the task are withdrawn, its queued runs closed now, and nothing else is touched. |
| `Policy.RetryDelay` | apps/control-plane/internal/job/worker.go:177-186 | The delay lies between one minute and four hours for every attempt number. |
| `Policy.DelayGrows` | apps/control-plane/internal/job/worker.go:177-186 | Later attempts never wait less; each of the first five waits longer than the one before. |
| `Policy.PlanFor` | apps/control-plane/internal/job/worker.go:137-152 | Wait iff the failure asks for the user; a retry iff retryable with attempts left, after the delay of the failure if it has one and of the schedule otherwise. |
| `Budget.AttemptBudget` | apps/control-plane/internal/job/worker.go:145-152 | A job is attempted at most five times plus once per user approval. |
| `Budget.WeightDrops` | apps/control-plane/internal/store/store.go:2711-3077 | Every change of a row except an approval lowers a natural-number measure. |
| `Budget.ChangesAreBounded` | apps/control-plane/internal/store/store.go:2711-3077 | So in any run, however long, a job changes a bounded number of times. |
| `Budget.TotalBackoff` | apps/control-plane/internal/job/worker.go:177-186 | With schedule-only delays all backoff ever given to a job sums to at most 81 minutes. |
| `RetryTimes.PutBackIsNotClaimed` | apps/control-plane/internal/store/store.go:3015-3021 | A job that a finish retries, or a recovery puts back, with delay d at time t is claimed by nobody before t + d, in every later run. |
| `RetryTimes.BackoffIsTheWait` | apps/control-plane/internal/store/store.go:3015-3021 | The recorded backoff of a job, which the 81 minutes bound, is exactly the time its retries and recoveries have made it wait. |
| `RetryTimes.RetryComesDue` | apps/control-plane/internal/store/store.go:3015-3021 | And when d has passed and nothing else is queued, it is the next to be claimed. |
| `Overtaking.NobodyJumpsAhead` | apps/control-plane/internal/store/store.go:2828-2836 | Nothing inserted, retried, recovered or approved gets ahead of an overdue job. |
| `Overtaking.NoOvertaking` | apps/control-plane/internal/store/store.go:2828-2844 | With k jobs ahead, an overdue job is claimed or cancelled within k + 1 claims. |
| `Overtaking.ServedWithinBound` | apps/control-plane/internal/store/store.go:2828-2844 | The same from every reachable state. |
| `RunTheorems.VerdictsAreSound` | apps/control-plane/internal/store/store.go:2974-2987 | In every reachable state a run status claims no more than its children show, and finished runs have only terminal children. |
| `RunTheorems.FinishesIff` | apps/control-plane/internal/store/store.go:2972-2987 | The verdict function: with all children terminal it is final iff one failed or none was cancelled, and otherwise says queued. |
| `RunTheorems.RefreshKeepsVerdict` | apps/control-plane/internal/store/store.go:2972-2987 | Refreshing a finished run again, at any later time, decides it the same way. |
| `RunTheorems.VerdictsAreStable` | apps/control-plane/internal/store/store.go:2952-3005 | A succeeded, failed or partly failed run keeps that status for ever. |
| `RunOutcomes.RunEndsIff` | apps/control-plane/internal/store/store.go:2952-3005 | A run becomes over in a step iff the step is a committed finish of one of its claims with a final verdict, or the cancellation of its task while it is queued. |
| `RunOutcomes.CancelledReopensIff` | apps/control-plane/internal/store/store.go:1690-1708 | A cancelled run is reopened by a step iff the step parks one of its claims for the user. |
| `RunOutcomes.StuckForever` | apps/control-plane/internal/store/store.go:2952-3005 | A run reported as running or waiting, whose children are all over and of which nobody holds a claim, keeps that status in every later run. |
| `RunOutcomes.RefusedForever` | apps/control-plane/internal/store/store.go:1466-1472 | And no manual run of its task is ever started again. |
| `RunOutcomes.BecomesStuckIff` | apps/control-plane/internal/store/store.go:2952-3005 | A step leaves a run stuck iff it is a cancellation or a recovery that ends its children while nobody holds a claim of it, or the last claim of a run already over is abandoned or finished without waiting for the user. |
| `RunOutcomes.StuckHasCause` | apps/control-plane/internal/store/store.go:2952-3005 | In every history a run is stuck only after such a step. |
| `RunOutcomes.BecomesShelvedIff` | apps/control-plane/internal/store/store.go:2972-2987 | A step puts a run back to queued with all children over iff it is a committed finish of one of its claims that leaves some children cancelled and none failed. |
| `RunOutcomes.ShelvedUntilCancelled` | apps/control-plane/internal/store/store.go:1239-1246 | Such a run leaves that state in a step iff the step updates or deletes its task. |
| `RunOutcomes.ShelvedRefuses` | apps/control-plane/internal/store/store.go:1466-1472 | Until then every manual run of its task is refused. |
| `Histories.CrashesLeaveRunStuck` | apps/control-plane/internal/store/store.go:2754-2810 | A history from the empty system, five crashes of a manual renewal long, that ends in a stuck run with its failed job uncounted. |
| `Histories.LateReturnLeavesRunStuck` | apps/control-plane/internal/store/store.go:2915-2926 | One where the worker of the last attempt loses its lease, returns late with success, and leaves the run stuck. |
| `Histories.CancelledRetryLeavesRunStuck` | apps/control-plane/internal/store/store.go:1239-1246 | One where a retried job is withdrawn. |
| `Histories.CancelledRunCanReopen` | apps/control-plane/internal/store/store.go:1690-1708 | One where a cancelled run is reopened. |
| `Histories.WithdrawnSiblingShelvesRun` | apps/control-plane/internal/store/store.go:1239-1246 | One where a deployment succeeds after its sibling was withdrawn, and the run goes back to queued. |
| `RunTheorems.BatchCounters` | apps/control-plane/internal/store/store.go:2961-2993 | total and succeeded are exact in every reachable state; failed lags only by jobs failed in lease recovery. |
| `Approval.ApprovalRequeuesIff` | apps/control-plane/internal/store/store.go:1671-1688 | An approval requeues the job iff it is already parked, and is consumed either way. |
| `Approval.BecomesStrandedIff` | apps/control-plane/internal/store/store.go:1671-1708 | A step strands a job iff its challenge is approved already and the step lets go of the last claim of the job, parking it or finding it parked. |
| `Approval.StrandedForever` | apps/control-plane/internal/store/store.go:1671-1708 | A stranded job is never moved by any later step. |
| `Approval.StrandedBlocksIssuance` | apps/control-plane/internal/store/store.go:927-944 | In every later state a request to issue its certificate is answered with in progress. |
| `Histories.StrandedIsReachable` | apps/control-plane/internal/store/store.go:1671-1708 | A history from the empty system that strands a job. |
| `Certificates.PointerSafety` | apps/control-plane/internal/store/store.go:2497-2507 | Over every history a current version is never cleared, belongs to its certificate, moves only in SaveCertificateVersion, and issued implies it is set. |
| `Certificates.PointerMoves` | apps/control-plane/internal/store/store.go:2497-2507 | What one event may do to one pointer. |
| `Joint.LostRenewalKeepsServing` | apps/control-plane/internal/store/store.go:2771-2800 | In every joint history of engine and certificates: a renewal that fails for good or loses its lease leaves the certificate issued, with the version it served before. |
| `Joint.PointersStayOk` | apps/control-plane/internal/store/store.go:2499-2506 | In every joint history issued certificates have a current version, and it is their own. |
| `CertStatuses.ClaimShows` | apps/control-plane/internal/store/store.go:2864-2875 | In every joint history a claimed first issuance shows its live certificate as issuing, a claimed renewal as renewing; no other row changes. |
| `CertStatuses.FinishShows` | apps/control-plane/internal/store/store.go:3045-3059 | A finish changes a status iff it gives up an issuance under a lease it still holds: failed after a first issuance, issued after a renewal that has a version; a retry, a wait and a success change none. |
| `CertStatuses.RecoveryShows` | apps/control-plane/internal/store/store.go:2771-2800 | A recovered first issuance leaves its certificate failed iff its attempts are used up and pending otherwise; a recovered renewal falls back to issued if it has a version. |
| `CertStatuses.RecoveryLeaves` | apps/control-plane/internal/store/store.go:2771-2800 | Certificates without a recovered issuance, and deleted ones, are left alone. |
| `CertStatuses.RequestShows` | apps/control-plane/internal/store/store.go:911-957 | A request makes its live certificate pending and queues one issue job of it. |
| `CertStatuses.SaveShows` | apps/control-plane/internal/store/store.go:2497-2506 | A save makes its certificate issued with the new version, unless it is deleted. |
| `Joint.RenewingDanglesIff` | apps/control-plane/internal/store/store.go:1239-1246 | A renewing certificate is left without a live issuance iff one step ends or withdraws all of them and writes no status: a cancellation, a completion, or giving up without a version. |
| `Joint.DanglingHasCause` | apps/control-plane/internal/store/store.go:1239-1246 | In every history a certificate dangles only after such a step. |
| `Scenarios.WithdrawnRenewalDangles` | apps/control-plane/internal/store/store.go:1239-1246 | A history where updating a task between two attempts of a renewal leaves the certificate renewing with nothing at work. |
| `Fanout.GroupRows` | apps/control-plane/internal/store/store.go:2545-2573 | The index-map grouping loop equals a plain group-by, whatever the order and repetition of rows. |
| `Fanout.GroupExtends` | apps/control-plane/internal/store/store.go:2558-2568 | A row of a known task extends that group only. |
| `Fanout.GroupOpens` | apps/control-plane/internal/store/store.go:2559-2564 | A row of a new task opens a group at the end. |
| `Fanout.TaskIdsAreTheTasks` | apps/control-plane/internal/store/store.go:2545-2573 | The groups are the tasks of the rows, each once. |
| `Fanout.TargetsOfAreTheTargets` | apps/control-plane/internal/store/store.go:2565-2567 | The targets of a group are the targets of its rows. |
| `Fanout.GrowthIsInsert` | apps/control-plane/internal/store/store.go:2574-2624 | Whatever only adds new rows, with runs that count their children, is an insert step of the engine. |
| `Fanout.FanOutGrows` | apps/control-plane/internal/store/store.go:2516-2624 | The fan-out is such an addition: no run without jobs, totals exact. |
| `Fanout.UnfilledRunLeavesNothing` | apps/control-plane/internal/store/store.go:2610-2615 | A run none of whose inserts took effect is deleted without trace. |
| `Fanout.FanOutIsExact` | apps/control-plane/internal/store/store.go:2516-2624 | Per idempotency pair, one new job if the fan-out asks for it and none otherwise. |
| `FanoutTheorems.FansOutExactly` | apps/control-plane/internal/store/store.go:2508-2624 | Exactly one new job per enabled target of each enabled deploy task, per enabled upload task and per automatic deployment, and no other. |
| `FanoutTheorems.DeliversWhere` | apps/control-plane/internal/store/store.go:2508-2624 | The same in the columns of the tables: which task, link and deployment rows make a job, and that no others do. |
| `FanoutTheorems.FansOutFaithfully` | apps/control-plane/internal/store/store.go:2516-2624 | Each new job carries the certificate, target, credential and task the catalogue says, under a run of its task, certificate and version. |
| `InsertPaths.GrowthIsAStep` | apps/control-plane/internal/store/store.go:2484-2627 | Insert paths lead from engine states to engine states. |
| `InsertPaths.InsertedGrows` | apps/control-plane/internal/store/store.go:911-2627 | All six insert paths are of that form. |
| `InsertPaths.InsertedKeys` | apps/control-plane/internal/store/store.go:911-2627 | All six keep idempotency keys unique, and version keys name saved versions. |
| `InsertPaths.EveryVersionIsDelivered` | apps/control-plane/internal/store/store.go:2484-2627 | After every history of work, requests, runs, scans and earlier versions, a new version fans out exactly. |
| `Scheduling.ManualRunGrows` | apps/control-plane/internal/store/store.go:1500-1552 | A manual run adds one job per target under one run whose total counts them. |
| `Scheduling.ManualRunIsAlone` | apps/control-plane/internal/store/store.go:1466-1472 | A started manual run is the only live run of its task, and none starts while one is live. |
| `ManualRuns.StartsIff` | apps/control-plane/internal/store/store.go:1456-1512 | A manual run starts iff the task is live and enabled, has no live run, has a version to deliver and targets to deliver to, each where its action needs it. |
| `ManualRuns.RepliesAre` | apps/control-plane/internal/store/store.go:1463-1512 | Otherwise the operator is told the first of four reasons. |
| `ManualRuns.StartedRun` | apps/control-plane/internal/store/store.go:1514-1552 | A started run adds one run and exactly the jobs of its action: one renewal, one upload with the credential of the task, or one deployment per target in order; each carries task, certificate and run, and nothing else changes. |
| `Stores.Store.QueueDueAutomationTasks` | apps/control-plane/internal/store/store.go:1564-1631 | The scan as it stands, its renewal insert given seven arguments for six placeholders: it fails iff a task is due, otherwise queues nothing, and in both cases leaves the tables as they were. |
| `Scenarios.DueAndNeverServed` | apps/control-plane/internal/store/store.go:1574-1615 | A history after which a certificate is due and the scan fails, then and at every later time. |
| `DueScan.DueIff` | apps/control-plane/internal/store/store.go:1574-1592 | A task is due iff it is live and enabled, renews, has reached its time, and its live certificate has a version that runs out within the window and no issuance queued or running. |
| `InsertPaths.OnlyManualRenewals` | apps/control-plane/internal/store/store.go:1609-1615 | So every renewal in every history was started by an operator. |
| `Stores.Store.DrainDueTasks` | apps/control-plane/internal/store/store.go:1564-1631 | The loop for any number of arguments: with six it terminates and is a scan in the sense of the rows below, with any other it fails at the first due task. |
| `Scheduling.ScanRetires` | apps/control-plane/internal/store/store.go:1575-1592 | With six arguments: serving a task retires exactly the due tasks of its certificate. |
| `DueScan.ScanDrains` | apps/control-plane/internal/store/store.go:1564-1631 | With six arguments: when the scan ends no task is due, and its count is the number of jobs added. |
| `DueScan.ScanServes` | apps/control-plane/internal/store/store.go:1564-1631 | With six arguments: exactly one renewal per due certificate, for its earliest-due task; none for the others. |
| `DueScan.ScanReschedules` | apps/control-plane/internal/store/store.go:1613-1623 | With six arguments: only the served tasks move, each to one interval from now. |
| `DueScan.RequestIsAlone` | apps/control-plane/internal/store/store.go:927-944 | An operator request is queued iff no issuance is live, and is then the only one. |
| `DueScan.ScanIsAloneIff` | apps/control-plane/internal/store/store.go:1582-1587 | With six arguments: the scan leaves one live issuance iff none was waiting for the user. |
| `DueScan.ManualRenewalIsAloneIff` | apps/control-plane/internal/store/store.go:1527-1535 | A manual renewal leaves one live issuance iff there was none. |
| `Scenarios.ScanAddsSecondIssuance` | apps/control-plane/internal/store/store.go:1582-1587 | With six arguments: a history after which the scan would add a second live issuance. |
| `Scenarios.ManualRenewalAddsSecondIssuance` | apps/control-plane/internal/store/store.go:1527-1535 | A history after which a manual renewal does. |
| `TaskAdmin.LinksInserted` | apps/control-plane/internal/store/store.go:1250-1258 | The insert loop succeeds iff all targets are available and distinct, and then the links are exactly those. |
| `TaskAdmin.UpdateReplacesLinks` | apps/control-plane/internal/store/store.go:1221-1260 | An update replaces the links of its task only, or on a bad target changes nothing. |
| `TaskAdmin.ReleasedExactly` | apps/control-plane/internal/store/store.go:1302-1321 | The cleanup loop deletes exactly the listed targets that nothing holds any more. |
| `TaskAdmin.FormerTargets` | apps/control-plane/internal/store/store.go:1262-1323 | After a deletion each former target is live iff another live task or an enabled deployment holds it. |
| `TaskAdmin.NoDanglingLinks` | apps/control-plane/internal/store/store.go:1221-1323 | In every history no link of a live task leads to a deleted target. |
| `TaskAdmin.UpdateGoesThroughIff` | apps/control-plane/internal/store/store.go:1221-1258 | An update commits iff task, certificate and credential rows exist, the interval is allowed, and the targets are available and distinct. |
| `TaskAdmin.TaskCertificatesStayLiveIff` | apps/control-plane/internal/store/store.go:1221-1236 | Live tasks keep live certificates under every transaction but an update that goes through and names a deleted one. |
| `TaskAdmin.UpdateAdoptsDeletedCertificate` | apps/control-plane/internal/store/store.go:1228-1236 | A history of three transactions in which one does. |
| `TaskEffects.UpdateWrites` | apps/control-plane/internal/store/store.go:1228-1258 | An update that goes through writes certificate, action, credential, interval, enabled flag and links in order, keeps the due time, and touches no other task. |
| `TaskEffects.CreateWrites` | apps/control-plane/internal/store/store.go:1416-1449 | A creation writes a live task due one interval from now, an hour by default, with its links in order. |
| `TaskEffects.CreateGoesThroughIff` | apps/control-plane/internal/store/store.go:1416-1449 | It commits iff the certificate is live, the credential active, the interval allowed, and the targets available, distinct and present where the action needs them. |
| `TaskEffects.DeleteWrites` | apps/control-plane/internal/store/store.go:1287-1301 | A deletion marks the task, removes its links and touches no other task. |
| `TaskEffects.ReleasedIff` | apps/control-plane/internal/store/store.go:1305-1321 | The cleanup takes a listed target iff it is still there, no live task links it and no enabled deployment leads to it. |
| `TaskEffects.PausedStartsNothing` | apps/control-plane/internal/store/store.go:1228 | After a pausing update, in every later history without one that enables the task: manual runs are refused, the due scan passes it over, and new versions are not delivered by it. |
| `TaskEffects.DeletedStartsNothing` | apps/control-plane/internal/store/store.go:1287 | After a deletion the same holds in every later history. |
| `TaskEffects.EnabledWorks` | apps/control-plane/internal/store/store.go:1228 | An enabling update puts the task back to work. |
| `TaskEffects.TargetDeletedIff` | apps/control-plane/internal/store/store.go:2222-2238 | A target is deleted iff no enabled link and no enabled deployment uses it. |
| `TaskEffects.DeploymentCreatedIff` | apps/control-plane/internal/store/store.go:2282-2296 | A deployment joins a live certificate and an available target that are not joined yet. |
| `TaskEffects.CertificateDeletedIff` | apps/control-plane/internal/store/store.go:995-1015 | A certificate is deleted iff no live task and no enabled deployment refers to it. |
| `TaskEffects.DeploymentsStayOk` | apps/control-plane/internal/store/store.go:2282-2296 | In every history enabled deployments refer to live certificates, and no two join the same pair. |
| `Stores.Store.ClaimJob` | apps/control-plane/internal/store/store.go:2820-2886 | Claims the first claimable row or reports that there is none; tables and claim as specified. |
| `Stores.Store.RefreshAutomationRun` | apps/control-plane/internal/store/store.go:2952-3005 | Counts, verdict and write of a run; fails iff the run is missing. |
| `Stores.Store.CompleteJob` | apps/control-plane/internal/store/store.go:2915-2948 | Leaves the specified tables, or the old ones after an error. |
| `Stores.Store.FailJob` | apps/control-plane/internal/store/store.go:3009-3077 | The same, with the certificate status. |
| `Stores.Store.MarkJobWaitingUser` | apps/control-plane/internal/store/store.go:1690-1708 | The same, without a check of the rows changed. |
| `Stores.Store.RecoverExpiredJobs` | apps/control-plane/internal/store/store.go:2711-2816 | Two loops that recover every expired row once, with the certificates. |
| `Stores.Store.SaveManualChallenge` | apps/control-plane/internal/store/store.go:1633-1648 | Inserts or reopens the challenge of a job. |
| `Stores.Store.ApproveManualChallenge` | apps/control-plane/internal/store/store.go:1671-1688 | Approves the newest waiting challenge, if any. |
| `Stores.Store.InsertJob` | apps/control-plane/internal/store/store.go:2534-2540 | ON CONFLICT DO NOTHING with its row count. |
| `Stores.Store.QueueDeployment` | apps/control-plane/internal/store/store.go:2298-2318 | Queues the current version once per target. |
| `Stores.Store.AutoDeployTargets` | apps/control-plane/internal/store/store.go:2507-2524 | Lists the targets of the automatic deployments. |
| `Stores.Store.JoinRows` | apps/control-plane/internal/store/store.go:2536-2542 | Computes the left join of delivery tasks and enabled links: nothing else, and no task or link missing. |
| `Stores.Store.SaveCertificateVersion` | apps/control-plane/internal/store/store.go:2484-2627 | Queries, grouping and nested loops produce exactly the specified fan-out, or nothing on an error. |
| `Stores.Store.DeliverTask` | apps/control-plane/internal/store/store.go:2574-2624 | One task of the fan-out, its queued counter being the number of its jobs. |
| `Stores.Store.QueueCertificateIssue` | apps/control-plane/internal/store/store.go:911-957 | The three outcomes of an operator request. |
| `Stores.Store.EnabledTargets` | apps/control-plane/internal/store/store.go:1493 | Lists the enabled targets of a task once each, by position. |
| `Stores.Store.QueueAutomationRun` | apps/control-plane/internal/store/store.go:1456-1562 | Each of the replies of a manual run, with the tables that go with it. |
| `Stores.Store.CreateAutomationTask` | apps/control-plane/internal/store/store.go:1325-1451 | Creates a task with its links, an interval of zero meaning one hour, or changes nothing. |
| `Stores.Store.UpdateAutomationTask` | apps/control-plane/internal/store/store.go:1221-1260 | Task, links and cancellations together, or nothing. |
| `Stores.Store.TargetsOfTask` | apps/control-plane/internal/store/store.go:1268-1285 | Lists the targets a task links. |
| `Stores.Store.DeleteAutomationTask` | apps/control-plane/internal/store/store.go:1262-1323 | Task, links, cancellations and target cleanup together, or nothing. |
| `Workers.Worker.Poll` | apps/control-plane/internal/job/worker.go:96-120 | The first half of a pass simulates the machine: a recovery of all expired rows and, unless nothing is claimable, a claim, certificates included. |
| `Workers.Worker.Finish` | apps/control-plane/internal/job/worker.go:122-135 | The second half simulates a finish step from whatever state the tables are in by then, certificates included. |
| `Workers.Worker.FinishFailure` | apps/control-plane/internal/job/worker.go:137-159 | Park, retry or give up, with the certificate status that goes with it. |
| `CloudAssets.AtMostOnceUpload` | apps/control-plane/internal/certupload/processor.go:103-161 | In every interleaving, versions and credentials moving freely: uploads of a pair at most one, plus deletions at the provider, unsaved ids, and uploads by handlers whose pair moved. |
| `CloudAssets.AtMostOnceWhileCurrent` | apps/control-plane/internal/certupload/processor.go:103-161 | From the moment a version is current, the first one included, while it stays so and targets keep their credential, the last term is gone. |
| `CloudAssets.MovedVersionUploadsTwice` | apps/control-plane/internal/certupload/processor.go:106-119 | A run where the version moves under a waiting handler and the pair is uploaded twice, with nothing deleted and every id saved. |
| `CloudAssets.SuccessIsBacked` | apps/control-plane/internal/certupload/processor.go:112-151 | A handler succeeds with an id it just saved or the provider just confirmed; only without lookup does it trust the row. |
| `CloudAssets.MutualExclusion` | apps/control-plane/internal/store/store.go:2393-2411 | No two handlers are inside the section of one pair. |
| `RightCertificates.SuccessIsOwnVersion` | apps/control-plane/internal/certupload/processor.go:112-151 | In every interleaving in which memos are true, a handler succeeds with a provider certificate made for its own version, and with a lookup for a credential of its own account. |
| `RightCertificates.RememberedIsOwnVersion` | apps/control-plane/internal/store/store.go:2342-2425 | Memos written by successes are true, so the same holds in every history of handlers that write and read them. |
| `RightCertificates.OtherVersionIsNotReused` | apps/control-plane/internal/certupload/processor.go:114-151 | When the row remembers another version and the loaded pair has no asset row, a pass that succeeds has made a new certificate for its pair and recorded it. |
| `RightCertificates.PassIsOwnVersion` | apps/control-plane/internal/deployment/processor.go:108-148 | With a true memo a pass succeeds with a certificate of its version, which with a lookup is still there and visible to its account. |
| `RightCertificates.PairIsCaptured` | apps/control-plane/internal/store/store.go:2320-2379 | A handler works for the version current when it began, with its own credential or that of its target. |
| `CloudAssets.StepKeeps` | apps/control-plane/internal/certupload/processor.go:106-154 | Every step keeps the bookkeeping behind the bound. |
| `CloudAssets.SectionDecides` | apps/control-plane/internal/deployment/processor.go:100-148 | An undisturbed pass reuses, gives up or makes a certificate as the rows it re-reads say. |
| `CloudAssets.SectionResult` | apps/control-plane/internal/certupload/processor.go:106-154 | An undisturbed pass uploads at most once, records it, and reuses a recorded certificate that still exists. |
| `CloudAssets.SectionIsARun` | apps/control-plane/internal/deployment/processor.go:100-148 | Such a pass is a run of the interleaving machine. |
| `CloudAssets.Processor.LoadConfiguration` | apps/control-plane/internal/store/store.go:2320-2379 | The joins and their COALESCE: the asset row of the current pair comes before what other rows remember. |
| `CloudAssets.Processor.Synchronize` | apps/control-plane/internal/certupload/processor.go:104-157 | The closure under the lock, written against the rows, does to them what the run of the machine does, with the same result. |
| `Realtime.SentIsSafe` | apps/control-plane/internal/httpapi/realtime.go:106-165 | Sent ids strictly increase, lie after the start cursor and are of visible events, whatever the relay does. |
| `Realtime.RelayPasses` | apps/control-plane/internal/httpapi/realtime.go:52-66 | An event reaches the queue of a subscriber that is an administrator or its owner, and is lost iff 32 events are waiting there. |
| `Handoff.LossFreeIsExactIff` | apps/control-plane/internal/httpapi/realtime.go:106-165 | With nothing dropped and ids in any order, the stream has no gap and no repeat iff the replay read the backlog, nothing unread arrived at or below its last id, and later ids were relayed in ascending order. |
| `Handoff.HandoffIsExactIff` | apps/control-plane/internal/httpapi/realtime.go:106-165 | With ordered relaying that is: iff at most 100 relayed events were pending at subscription. |
| `Handoff.LongBacklogSkips` | apps/control-plane/internal/store/store.go:293-324 | A run with 101 events relayed in order before the subscription, nothing dropped, that is not exact. |
| `Handoff.PageCovers` | apps/control-plane/internal/store/store.go:293-324 | A page of 100 covers the backlog iff the backlog has at most 100 events. |
| `Handoff.NeverBackfilled` | apps/control-plane/internal/httpapi/realtime.go:150-157 | What the cursor has passed is never sent later. |
| `Handoff.OutOfOrderSkips` | apps/control-plane/internal/httpapi/realtime.go:150-157 | A run where ids commit out of order and a relayed event is lost with nothing dropped. |
| `RealtimeHub.Hub.Subscribe` | apps/control-plane/internal/httpapi/realtime.go:38-50 | A fresh id with an empty queue. |
| `RealtimeHub.Hub.Publish` | apps/control-plane/internal/httpapi/realtime.go:52-66 | Every subscriber gets its own offer, independent of map order; full queues drop. |
| `RealtimeHub.PublishedReaches` | apps/control-plane/internal/httpapi/realtime.go:52-66 | A published event reaches administrators and its owner, as far as their queues have room for it. |
| `RealtimeHub.Connection.Replay` | apps/control-plane/internal/httpapi/realtime.go:121-132 | The replay loop sends what lies beyond the cursor. |
| `RealtimeHub.Connection.Receive` | apps/control-plane/internal/httpapi/realtime.go:150-157 | The live loop skips what the cursor has passed. |
| `Names.NormalIgnores` | apps/control-plane/internal/httpapi/server.go:1873 | Normalising forgets surrounding white space, letter case and a final dot. |
| `Names.NormalKeeps` | apps/control-plane/internal/httpapi/server.go:1873 | And nothing else. |
| `Names.JoinSplit` | apps/control-plane/internal/httpapi/server.go:1883-1886 | Joining the labels of a name gives the name back. |
| `Names.SplitConcat` | apps/control-plane/internal/httpapi/server.go:1883-1886 | A dot between two names concatenates their labels. |
| `Names.CoversIff` | apps/control-plane/internal/httpapi/server.go:1870-1891 | A covering wildcard is the star before the parent of the name. |
| `Names.ApexIsNotCovered` | apps/control-plane/internal/httpapi/server.go:1867-1869 | A wildcard never covers its apex. |
| `Names.SuffixIsLabelSuffix` | apps/control-plane/internal/store/store.go:1143 | Suffix at a dot boundary is suffix of the label list. |
| `Domains.RedundantIff` | apps/control-plane/internal/httpapi/server.go:1883-1887 | The map lookup finds a covering wildcard iff there is one. |
| `Domains.RedundantExactDomain` | apps/control-plane/internal/httpapi/server.go:1870-1891 | Returns the first redundant name with a listed witness, or nothing when no name is redundant. |
| `Domains.FindWildcard` | apps/control-plane/internal/issuance/processor.go:415-425 | The body of the second loop. |
| `Domains.ValidateDomains` | apps/console/features/certificates/components/certificate-workflow.tsx:383-400 | The console accepts iff names are distinct, well formed and none is covered; other verdicts carry true witnesses. |
| `ConsolePattern.NameOkIff` | apps/console/features/certificates/components/certificate-workflow.tsx:389 | The label-by-label test accepts exactly the language of the regular expression, up to 253 characters. |
| `Domains.EntriesAre` | apps/console/features/certificates/components/certificate-workflow.tsx:38-46 | The entries of the text field lie between its line breaks and commas, and nothing is lost. |
| `Domains.CleanedAre` | apps/console/features/certificates/components/certificate-workflow.tsx:38-46 | The submitted names are the non-empty entries of the text field, trimmed and in lower case. |
| `Domains.ChecksAgree` | apps/control-plane/internal/httpapi/server.go:1870-1891 | On submitted well-formed names the server finds a redundant name iff the console does. |
| `Domains.AcceptedPasses` | apps/console/features/certificates/components/certificate-list.tsx:606-614 | Every list the console accepts and submits passes the server. |
| `Domains.CertificateDomainsWithinZones` | apps/control-plane/internal/store/store.go:1134-1152 | True iff for every name some non-empty zone is a label suffix of its challenge name. |
| `Domains.ZonesMonotone` | apps/control-plane/internal/store/store.go:1134-1152 | More zones never refuse more. |
| `Domains.DistinctAre` | apps/control-plane/internal/httpapi/server.go:1814-1828 | The normal form holds each non-empty zone once. |
| `Domains.NormalizeZones` | apps/control-plane/internal/httpapi/server.go:1814-1828 | The loop computes that normal form. |
| `ManualDns.Classify` | apps/control-plane/internal/issuance/processor.go:363-376 | Retryable iff the server throttles, fails or times out; never waiting for the user. |
| `ManualDns.PrepareChallenges` | apps/control-plane/internal/issuance/processor.go:281-305 | One record per authorization that is not yet valid, in order; otherwise the first trouble, and an error iff there is one. |
| `ManualDns.ValidateChallenges` | apps/control-plane/internal/issuance/processor.go:230-251 | The first trouble in fetching, accepting or waiting, iff there is one. |
| `ManualDns.HandleManual` | apps/control-plane/internal/issuance/processor.go:227-315 | Parks iff nothing is approved, the order is placed, its answers are free of trouble, some authorization is pending, the records are saved and no execution step failed to be recorded; every other ending is named and never waits for the user. |
| `ManualDns.PendingAre` | apps/control-plane/internal/issuance/processor.go:283-290 | The pending authorizations are those not yet valid. |
| `ManualDns.UntroubledIff` | apps/control-plane/internal/issuance/processor.go:230-305 | Records can be prepared iff every authorization is valid or offers a challenge with a good token; validation goes through iff every one is valid or its challenge is accepted and comes out. |
| `ManualDns.ItemIs` | apps/control-plane/internal/issuance/processor.go:299-300 | A record carries the domain, the challenge name of the bare domain, and the TXT value. |
| `ManualDns.RecordLabels` | apps/control-plane/internal/issuance/processor.go:299-300 | The record has the labels the zone check looks at, with or without the star. |
| `ManualDns.RecordLiesInZone` | apps/control-plane/internal/issuance/processor.go:299-300 | A name accepted for some zones is validated by a record inside one of them. |
| `CanonicalQuery.EncodeIsPercentEncode` | apps/control-plane/internal/aliyunrpc/client.go:125 | Escaping and replacing plus signs is percent-encoding (RFC 3986 section 2.1). |
| `CanonicalQuery.DecodeEncode` | apps/control-plane/internal/aliyunrpc/client.go:125 | Decoding gives the text back, so encoding is injective. |
| `CanonicalQuery.RenderInjective` | apps/control-plane/internal/aliyunrpc/client.go:112-119 | The joined parts decode to one list of pairs only. |
| `CanonicalQuery.PartDecodes` | apps/control-plane/internal/aliyunrpc/client.go:112-119 | A part splits at its first equals sign into texts that decode to key and value. |
| `CanonicalQuery.LeqIff` | apps/control-plane/internal/aliyunrpc/client.go:110 | The order of keys and values is the byte-wise lexicographic one. |
| `CanonicalQuery.CanonicalText` | apps/control-plane/internal/aliyunrpc/client.go:104-119 | The loops compute a canonical text, in whatever order the map is walked. |
| `CanonicalQuery.CanonicalIff` | apps/control-plane/internal/aliyunrpc/client.go:104-119 | Two requests sign the same text iff they carry the same pairs, the signature excluded. |
| `CanonicalQuery.MessageIff` | apps/control-plane/internal/aliyunrpc/client.go:120-121 | The same for the bytes under the digest. |
| `CanonicalQuery.MessageIs` | apps/control-plane/internal/aliyunrpc/client.go:120-121 | Method and path in front of the text, which is encoded once more. |

## Left out

- Row locks and READ COMMITTED anomalies: each transaction is one atomic step. Recovery may skip any
  expired rows; a claim takes the first claimable row and does not skip a locked one.
- Clocks: one monotone database clock; CreateCertificate stamps rows with the process clock.
- The database driver: that it refuses a call whose arguments do not match the placeholders is taken
  from its documentation; of all calls in the store only the renewal insert of the due scan is such.
- One due scan, with its insert accepted, runs at a fixed time; in the program each of its
  transactions reads the clock again.
- The check-then-update of DeleteDeploymentTarget and DeleteCertificate is one step here; the program
  runs two statements without a transaction.
- CreateAutomationTaskWithInlineTarget: creating a target and then a task in one transaction.
- Task names and their uniqueness, owners and per-user scoping, credential rows beyond an active flag.
- last_status, last_error and last_run_at of tasks, error messages, execution steps and summaries,
  the outbox, audit records and database triggers.
- ConsumeManualChallenge and issueAndStore, up to which the manual handler is modelled.
- ManualDns.HandleManual: what the server and the store answer is a parameter, one answer per
  authorization; the context's deadline is the answer that times out.
- QueueDueRenewals: nothing schedules it.
- Worker shutdown and lost replies of a commit appear as a worker abandoning its claim.
- The advisory lock is held until the section ends; a database connection that breaks while the
  handler goes on is not modelled. Hash collisions of the lock key only serialise more.
- Provider certificates are ids with the pair they were made for, and can be deleted at any time;
  names and their rejection as duplicates are refusals of an upload. Rotating the secret of a
  credential changes neither its id nor its account and is not modelled.
- Pruning of realtime events after thirty days, heartbeats and the wire format.
- Text is ASCII where case and spaces matter; other alphabets are not folded.
- What task, link and deployment rows remember of an upload is one memo of id and version, as every
  statement that writes one column writes the other; which row a handler reads is left open.
- HTTP, JSON, e-mail, cryptography, the user interface, dashboards and list queries.
- Stores.Store.SaveCertificateVersion: the program sorts the join by task and position; the method
  walks the tasks in any order.
- Stores.Store.QueueAutomationRun: reads the enabled targets first; the program reads them for
  deployments only, after the other checks of the same transaction.
- Budget.TotalBackoff: assumes that handlers leave the delay to the schedule, as all of them do.
- Handoff.LossFreeIsExactIff: assumes that nothing was dropped, that is a connected relay and no full
  queue.
- Handoff.HandoffIsExactIff: assumes in addition that ids are committed and relayed in order.
