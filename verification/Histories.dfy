/** Runs of the whole system, from its empty start, that reach the states the exact conditions speak of. */
module Histories {
  import opened Rows
  import opened Policy
  import opened System
  import opened Engine
  import opened Invariant
  import opened EngineTheorems
  import opened RunTheorems
  import opened RunOutcomes
  import opened Approval
  import opened Catalog
  import opened Scheduling
  import opened Preservation
  import Fanout
  import InsertPaths
  import ManualDns

  // ---------- building blocks: a table with one job ----------

  function OneJob(i: Id, j: Job): map<Id, Job> {
    map[i := j]
  }

  lemma Wait(s: Sys, to: Time) returns (s': Sys)
    requires Reachable(s) && s.now <= to
    ensures Reachable(s') && s' == s.(now := to)
  {
    ReachStep(s, Advance(to));
    s' := Next(s, Advance(to));
  }

  lemma ClaimOnly(s: Sys, i: Id, w: Id) returns (s': Sys)
    requires Reachable(s) && w !in s.workers
    requires i in s.q.jobs && s.q.jobs == OneJob(i, s.q.jobs[i]) && Claimable(s.q.jobs[i], s.now)
    ensures Reachable(s') && s'.now == s.now
    ensures s'.q.jobs == OneJob(i, ClaimedRow(s.q.jobs[i], s.now, w, LEASE_DURATION))
    ensures s'.q.runs == StartRun(s.q.runs, s.q.jobs[i].run) && s'.q.challenges == s.q.challenges
    ensures w in s'.workers && s'.workers == s.workers[w := s'.workers[w]]
    ensures s'.workers[w] == ClaimOf(s'.q.jobs[i], i, s.q.nextId, s.now + LEASE_DURATION)
  {
    assert IsNext(s.q.jobs, s.now, i);
    ReachStep(s, Take(w, i));
    s' := Next(s, Take(w, i));
  }

  lemma RecoverOnly(s: Sys, i: Id) returns (s': Sys)
    requires Reachable(s)
    requires i in s.q.jobs && s.q.jobs == OneJob(i, s.q.jobs[i]) && Expired(s.q.jobs[i], s.now)
    ensures Reachable(s') && s'.now == s.now && s'.workers == s.workers
    ensures s'.q.jobs == OneJob(i, RecoveredRow(s.q.jobs[i], s.now, MINUTE))
    ensures s'.q.runs == s.q.runs && s'.q.challenges == s.q.challenges
  {
    var step := Recover([i]);
    assert ListsExpired(s.q.jobs, s.now, [i]);
    ReachStep(s, step);
    s' := Next(s, step);
    RecoveryIsOneUpdate(s.q, s.now, RetryDelay(1), [i]);
    assert Elements([i]) == {i};
  }

  /** Worker `w` takes the job, loses its lease, and the row is recovered; `w` may live on. */
  lemma LoseLease(s: Sys, i: Id, w: Id, dies: bool) returns (s': Sys)
    requires Reachable(s) && w !in s.workers
    requires i in s.q.jobs && s.q.jobs == OneJob(i, s.q.jobs[i])
    requires s.q.jobs[i].status == Queued && !s.q.jobs[i].cancelRequested
    ensures Reachable(s') && i in s'.q.jobs && s'.q.jobs == OneJob(i, s'.q.jobs[i])
    ensures var j, j' := s.q.jobs[i], s'.q.jobs[i];
            && j'.attempt == j.attempt + 1 && j'.maxAttempts == j.maxAttempts && j'.run == j.run && j'.task == j.task
            && !j'.cancelRequested
            && j'.status == (if j.attempt + 1 >= j.maxAttempts then Failed else Queued)
    ensures s'.q.runs == StartRun(s.q.runs, s.q.jobs[i].run)
    ensures if dies then s'.workers == s.workers
            else w in s'.workers && s'.workers == s.workers[w := s'.workers[w]]
                 && s'.workers[w].job == i && s'.workers[w].run == s.q.jobs[i].run
  {
    s' := TakeWhenDue(s, i, w);
    if dies {
      s' := Die(s', w);
      assert s'.workers == s.workers;
    }
    s' := Wait(s', s'.now + LEASE_DURATION);
    s' := RecoverOnly(s', i);
  }

  lemma TakeWhenDue(s: Sys, i: Id, w: Id) returns (s': Sys)
    requires Reachable(s) && w !in s.workers
    requires i in s.q.jobs && s.q.jobs == OneJob(i, s.q.jobs[i])
    requires s.q.jobs[i].status == Queued && !s.q.jobs[i].cancelRequested
    ensures Reachable(s') && s'.q.jobs == OneJob(i, ClaimedRow(s.q.jobs[i], s'.now, w, LEASE_DURATION))
    ensures s'.q.runs == StartRun(s.q.runs, s.q.jobs[i].run)
    ensures w in s'.workers && s'.workers == s.workers[w := s'.workers[w]]
    ensures s'.workers[w].job == i && s'.workers[w].run == s.q.jobs[i].run
  {
    s' := Wait(s, if s.now < s.q.jobs[i].nextRunAt then s.q.jobs[i].nextRunAt else s.now);
    s' := ClaimOnly(s', i, w);
  }

  lemma Die(s: Sys, w: Id) returns (s': Sys)
    requires Reachable(s) && w in s.workers
    ensures Reachable(s') && s' == s.(workers := s.workers - {w})
  {
    ReachStep(s, Abandon(w));
    s' := Next(s, Abandon(w));
  }

  // ---------- a batch run with one renewal ----------

  function TaskFor(action: Action): Task {
    Task(0, action, None, 3600, true, false, 0)
  }

  /** The row of a manual renewal. */
  function RenewRow(now: Time): Job {
    ManualJob(0, TaskFor(RenewCertificate), None, 1, 0, now)
  }

  function FreshRun(): Run {
    Run(0, 0, None, RunQueued, 1, 0, 0, None)
  }

  /** A manual run of task 0 in the empty system. */
  lemma Started(now: Time, task: Task, certs: map<Id, Cert>, targets: seq<Id>) returns (s: Sys)
    requires QueueRun(Initial(now).q, map[0 := task], certs, targets, now, 0).RunStarted?
    ensures Reachable(s) && s == Initial(now).(q := QueueRun(Initial(now).q, map[0 := task], certs, targets, now, 0).q)
  {
    var q, q' := Initial(now).q, QueueRun(Initial(now).q, map[0 := task], certs, targets, now, 0).q;
    EmptyIsReachable(now);
    ReachableInv(Initial(now));
    InsertPaths.RunGrows(q, map[0 := task], certs, targets, now, 0);
    InsertPaths.GrowthIsAStep(Initial(now), q');
    ReachStep(Initial(now), Insert(Fanout.Added(q, q')));
    s := Next(Initial(now), Insert(Fanout.Added(q, q')));
  }

  lemma OneRun(now: Time) returns (s: Sys)
    ensures Reachable(s) && s.now == now && s.workers == map[]
    ensures s.q.jobs == OneJob(1, RenewRow(now)) && s.q.runs == map[0 := FreshRun()]
    ensures QueueRun(Initial(now).q, map[0 := TaskFor(RenewCertificate)], map[], [], now, 0) == RunStarted(0, s.q)
  {
    assert LiveRuns(Initial(now).q.runs, 0) == {};
    s := Started(now, TaskFor(RenewCertificate), map[], []);
    OneSlotRun(Initial(now).q, 0, TaskFor(RenewCertificate), None, None, now);
  }

  /** The one job after `attempts` crashes. */
  ghost predicate Crashed(s: Sys, attempts: nat) {
    && 1 in s.q.jobs && s.q.jobs == OneJob(1, s.q.jobs[1])
    && (var j := s.q.jobs[1];
        && j.attempt == attempts && j.maxAttempts == 5 && j.run == Some(0) && !j.cancelRequested
        && j.status == if attempts == 5 then Failed else Queued)
    && 0 in s.q.runs && s.q.runs[0].failed == 0
    && s.q.runs[0].status == if attempts == 0 then RunQueued else RunRunning
  }

  lemma Crashes(now: Time, attempts: nat) returns (s: Sys)
    requires attempts <= 5
    ensures Reachable(s) && s.workers == map[] && Crashed(s, attempts)
  {
    s := OneRun(now);
    var n := 0;
    while n < attempts
      invariant 0 <= n <= attempts && Reachable(s) && s.workers == map[] && Crashed(s, n)
    {
      s := LoseLease(s, 1, 0, true);
      n := n + 1;
    }
  }

  /** A worker that dies on every attempt: the job fails in recovery, its run stays running and does
      not count it. */
  lemma CrashesLeaveRunStuck(now: Time) returns (s: Sys)
    ensures Reachable(s) && Stuck(s, 0) && s.q.runs[0].status == RunRunning
    ensures 1 in Children(s.q.jobs, 0) && s.q.jobs[1].status == Failed && s.q.runs[0].failed == 0
  {
    s := Crashes(now, 5);
    assert Children(s.q.jobs, 0) == {1};
  }

  /** The last attempt only loses its lease. Its worker still holds the claim, returns late, and leaves
      the run stuck although the handler succeeded. */
  lemma LateReturnLeavesRunStuck(now: Time) returns (s: Sys)
    ensures Reachable(s) && 0 in s.workers && 0 in s.q.runs && AllOver(s.q.jobs, 0) && !Stuck(s, 0)
    ensures Stuck(Next(s, Finish(0, Returned)), 0)
  {
    s := Crashes(now, 4);
    s := LoseLease(s, 1, 0, false);
    assert Children(s.q.jobs, 0) == {1};
    assert s.workers[0].run == Some(0) && !Unheld(s, 0);
    LastReturnSticks(s, 0, 0);
  }

  lemma LastReturnSticks(s: Sys, w: Id, r: Id)
    requires Reachable(s) && LastClaim(s, w, r) && r in s.q.runs && s.q.runs[r].status == RunRunning
    requires AllOver(s.q.jobs, r) && !Stuck(s, r)
    ensures Stuck(Next(s, Finish(w, Returned)), r)
  {
    ReachableInv(s);
    BecomesStuckIff(s, Finish(w, Returned), r);
  }

  lemma FailOnly(s: Sys, w: Id) returns (s': Sys)
    requires Reachable(s) && w in s.workers && s.workers[w].job == 1 && s.workers[w].run == Some(0) && 0 in s.q.runs
    requires 1 in s.q.jobs && s.q.jobs == OneJob(1, s.q.jobs[1]) && HoldsLease(s.q.jobs, 1, w)
    requires s.q.jobs[1].run == Some(0) && s.workers[w].attempt < s.workers[w].maxAttempts
    ensures Reachable(s') && s'.workers == s.workers - {w}
    ensures s'.q.jobs == OneJob(1, FailedRow(s.q.jobs[1], s.now, Some(RetryDelay(s.workers[w].attempt))))
    ensures 0 in s'.q.runs && s'.q.runs[0].status == RunRunning && s'.q.runs[0].task == s.q.runs[0].task
  {
    ReachStep(s, Finish(w, Unclassified));
    s' := Next(s, Finish(w, Unclassified));
    NextFinish(s, w, Unclassified);
    FailOneJob(s.q, s.now, s.workers[w], w, HandlerCode("execution_failed"), RetryDelay(s.workers[w].attempt));
  }

  lemma FailOneJob(q: Queue, now: Time, c: Claim, w: Id, code: ErrorCode, delay: Time)
    requires c.job == 1 && c.run == Some(0) && 0 in q.runs && HoldsLease(q.jobs, 1, w)
    requires q.jobs == OneJob(1, q.jobs[1]) && q.jobs[1].run == Some(0)
    ensures var tx := Engine.FailJob(q, now, c, w, code, Some(delay));
            && tx.Some? && tx.value.jobs == OneJob(1, FailedRow(q.jobs[1], now, Some(delay)))
            && 0 in tx.value.runs && tx.value.runs[0].status == RunRunning && tx.value.runs[0].task == q.runs[0].task
  {
    var row := FailedRow(q.jobs[1], now, Some(delay));
    assert q.jobs[1 := row] == OneJob(1, row);
    OneQueuedChild(row);
  }

  lemma OneQueuedChild(row: Job)
    requires row.status == Queued && row.run == Some(0)
    ensures VerdictOf(OneJob(1, row), 0).0 == RunRunning
  {
    var jobs := OneJob(1, row);
    assert Children(jobs, 0) == {1} && ChildrenIn(jobs, 0, {WaitingUser}) == {};
    assert ChildrenIn(jobs, 0, {Queued, Running}) == {1};
  }

  /** A retried job withdrawn by a task update: its run stays running. */
  lemma CancelledRetryLeavesRunStuck(now: Time) returns (s: Sys)
    ensures Reachable(s) && Stuck(s, 0) && s.q.runs[0].status == RunRunning
    ensures 1 in Children(s.q.jobs, 0) && s.q.jobs[1].status == Cancelled
  {
    s := OneRun(now);
    s := ClaimOnly(s, 1, 0);
    s := FailOnly(s, 0);
    assert Children(s.q.jobs, 0) == {1};
    WithdrawnSticks(s, 0);
    s := WithdrawOnly(s);
  }

  lemma WithdrawnSticks(s: Sys, r: Id)
    requires Reachable(s) && r in s.q.runs && s.q.runs[r].status in {RunRunning, RunWaiting} && Unheld(s, r)
    requires forall i | i in Children(s.q.jobs, r) :: s.q.jobs[i].status == Queued
    ensures Stuck(Next(s, Cancel(s.q.runs[r].task)), r)
  {
    ReachableInv(s);
    RunsArePlain(s, r);
    CancelSticksIff(s, s.q.runs[r].task, r);
  }

  lemma ParkReopens(s: Sys, w: Id, r: Id)
    requires Reachable(s) && w in s.workers && s.workers[w].run == Some(r)
    requires r in s.q.runs && s.q.runs[r].status == RunCancelled
    ensures r in Next(s, Finish(w, PARK)).q.runs && Next(s, Finish(w, PARK)).q.runs[r].status != RunCancelled
  {
    ReachableInv(s);
    CancelledReopensIff(s, Finish(w, PARK), r);
  }

  const PARK := Classified(ManualDns.REQUIRED)

  lemma WithdrawOnly(s: Sys) returns (s': Sys)
    requires Reachable(s) && 1 in s.q.jobs && s.q.jobs == OneJob(1, s.q.jobs[1]) && 0 in s.q.runs
    requires s.q.jobs[1].task == Some(0) && s.q.jobs[1].run == Some(0) && s.q.jobs[1].status in {Queued, Cancelled}
    requires s.q.runs[0].task == 0
    ensures Reachable(s') && s' == Next(s, Cancel(0)) && s'.workers == s.workers
    ensures 1 in s'.q.jobs && s'.q.jobs == OneJob(1, s'.q.jobs[1])
    ensures s'.q.jobs[1].status == Cancelled && s'.q.jobs[1].run == Some(0) && s'.q.jobs[1].task == Some(0)
    ensures 0 in s'.q.runs && s'.q.runs[0].task == 0
    ensures s'.q.runs[0].status == if s.q.runs[0].status == RunQueued then RunCancelled else s.q.runs[0].status
  {
    ReachStep(s, Cancel(0));
    s' := Next(s, Cancel(0));
    assert s'.q.jobs == OneJob(1, s'.q.jobs[1]);
  }

  /** The late wait of a lost claim puts the run of a withdrawn job back to queued. */
  lemma LateWaitRequeues(s: Sys, w: Id) returns (s': Sys)
    requires Reachable(s) && w in s.workers && s.workers[w].run == Some(0) && s.workers[w].job == 1
    requires 1 in s.q.jobs && s.q.jobs == OneJob(1, s.q.jobs[1]) && 0 in s.q.runs
    requires s.q.jobs[1].status == Cancelled && s.q.jobs[1].run == Some(0)
    ensures Reachable(s') && s'.workers == s.workers - {w} && s'.q.jobs == s.q.jobs
    ensures 0 in s'.q.runs && s'.q.runs[0].status == RunQueued && s'.q.runs[0].task == s.q.runs[0].task
  {
    ReachStep(s, Finish(w, PARK));
    s' := Next(s, Finish(w, PARK));
    assert Children(s.q.jobs, 0) == {1};
    FinishesIff(s.q.jobs, 0);
  }

  /** Two workers lose their leases on one job, its task is updated, one of them parks late, the task
      is updated again: the run is cancelled, and the other worker can still reopen it. */
  lemma CancelledRunCanReopen(now: Time) returns (s: Sys)
    ensures Reachable(s) && 0 in s.q.runs && s.q.runs[0].status == RunCancelled && 0 in s.workers
    ensures 0 in Next(s, Finish(0, PARK)).q.runs && Next(s, Finish(0, PARK)).q.runs[0].status != RunCancelled
  {
    s := TwoLost(now);
    s := LateWaitRequeues(s, 1);
    s := WithdrawOnly(s);
    ParkReopens(s, 0, 0);
  }

  lemma TwoLost(now: Time) returns (s: Sys)
    ensures Reachable(s) && 0 in s.workers && 1 in s.workers
    ensures s.workers[0].job == s.workers[1].job == 1 && s.workers[0].run == s.workers[1].run == Some(0)
    ensures 1 in s.q.jobs && s.q.jobs == OneJob(1, s.q.jobs[1]) && s.q.jobs[1].status == Cancelled
    ensures s.q.jobs[1].run == Some(0) && s.q.jobs[1].task == Some(0) && 0 in s.q.runs && s.q.runs[0].task == 0
  {
    s := OneRun(now);
    s := LoseLease(s, 1, 0, false);
    s := LoseLease(s, 1, 1, false);
    s := WithdrawOnly(s);
  }

  // ---------- a batch with two deployments ----------

  function DeployRow(id: Id, target: Id, now: Time): Job {
    ManualJob(0, TaskFor(DeployAlb), Some(target), id, 0, now)
  }

  function TwoJobs(a: Job, b: Job): map<Id, Job> {
    map[1 := a, 2 := b]
  }

  lemma TwoDeployments(now: Time) returns (s: Sys)
    ensures Reachable(s) && s.now == now && s.workers == map[]
    ensures s.q.jobs == TwoJobs(DeployRow(1, 0, now), DeployRow(2, 1, now))
    ensures 0 in s.q.runs && s.q.runs[0].task == 0 && s.q.runs[0].status == RunQueued
  {
    var certs := map[0 := Cert(Issued, Some(0), 0, false)];
    assert LiveRuns(Initial(now).q.runs, 0) == {};
    assert Slots(TaskFor(DeployAlb), [0, 1]) == [Some(0), Some(1)];
    s := Started(now, TaskFor(DeployAlb), certs, [0, 1]);
    TwoSlots(Initial(now).q, now);
  }

  lemma TwoSlots(q: Queue, now: Time)
    requires q.jobs == map[] && q.nextId == 0
    ensures ManualRun(q, 0, TaskFor(DeployAlb), Some(0), [Some(0), Some(1)], now).jobs
            == TwoJobs(DeployRow(1, 0, now), DeployRow(2, 1, now))
  {
    var slots: seq<Option<Id>> := [Some(0), Some(1)];
    var started := OpenManualRun(q, 0, TaskFor(DeployAlb), Some(0), 2);
    var jobs, jobs' := TwoJobs(DeployRow(1, 0, now), DeployRow(2, 1, now)),
                       ManualRun(q, 0, TaskFor(DeployAlb), Some(0), slots, now).jobs;
    forall i
      ensures i in jobs <==> i in jobs'
      ensures i in jobs ==> jobs[i] == jobs'[i]
    {
      ManualJobAt(started, 0, TaskFor(DeployAlb), slots, 0, now, i);
    }
    assert jobs' == jobs;
  }

  /** One deployment is running when the task is updated and the other is withdrawn; then it succeeds. */
  lemma WithdrawnSiblingShelvesRun(now: Time) returns (s: Sys)
    ensures Reachable(s) && Shelved(s, 0)
    ensures Children(s.q.jobs, 0) == {1, 2} && s.q.jobs[1].status == Succeeded && s.q.jobs[2].status == Cancelled
  {
    s := TwoDeployments(now);
    s := TakeFirst(s);
    s := WithdrawSecond(s);
    s := FirstSucceeds(s);
  }

  lemma TakeFirst(s: Sys) returns (s': Sys)
    requires Reachable(s) && s.workers == map[] && s.q.jobs == TwoJobs(DeployRow(1, 0, s.now), DeployRow(2, 1, s.now))
    requires 0 in s.q.runs && s.q.runs[0].task == 0 && s.q.runs[0].status == RunQueued
    ensures Reachable(s') && 0 in s'.workers && s'.workers[0].job == 1 && s'.workers[0].run == Some(0)
    ensures s'.q.jobs == TwoJobs(ClaimedRow(DeployRow(1, 0, s.now), s.now, 0, LEASE_DURATION), DeployRow(2, 1, s.now))
    ensures 0 in s'.q.runs && s'.q.runs[0].task == 0 && s'.q.runs[0].status == RunRunning
  {
    assert IsNext(s.q.jobs, s.now, 1);
    ReachStep(s, Take(0, 1));
    s' := Next(s, Take(0, 1));
  }

  lemma WithdrawSecond(s: Sys) returns (s': Sys)
    requires Reachable(s) && 0 in s.workers && s.workers[0].job == 1 && s.workers[0].run == Some(0)
    requires 1 in s.q.jobs && 2 in s.q.jobs && s.q.jobs == TwoJobs(s.q.jobs[1], s.q.jobs[2])
    requires HoldsLease(s.q.jobs, 1, 0) && s.q.jobs[2].status == Queued && s.q.jobs[2].task == Some(0)
    requires s.q.jobs[1].run == s.q.jobs[2].run == Some(0)
    requires 0 in s.q.runs && s.q.runs[0].task == 0 && s.q.runs[0].status == RunRunning
    ensures Reachable(s') && s'.workers == s.workers && 0 in s'.q.runs && s'.q.runs[0].status == RunRunning
    ensures 1 in s'.q.jobs && 2 in s'.q.jobs && s'.q.jobs == TwoJobs(s.q.jobs[1], s'.q.jobs[2])
    ensures s'.q.jobs[2].status == Cancelled && s'.q.jobs[2].run == Some(0)
  {
    ReachStep(s, Cancel(0));
    s' := Next(s, Cancel(0));
    assert s'.q.jobs == TwoJobs(s.q.jobs[1], s'.q.jobs[2]);
  }

  lemma FirstSucceeds(s: Sys) returns (s': Sys)
    requires Reachable(s) && 0 in s.workers && s.workers[0].job == 1 && s.workers[0].run == Some(0)
    requires 1 in s.q.jobs && 2 in s.q.jobs && s.q.jobs == TwoJobs(s.q.jobs[1], s.q.jobs[2])
    requires HoldsLease(s.q.jobs, 1, 0) && s.q.jobs[2].status == Cancelled
    requires s.q.jobs[1].run == s.q.jobs[2].run == Some(0) && 0 in s.q.runs && s.q.runs[0].status == RunRunning
    ensures Reachable(s') && Shelved(s', 0)
    ensures Children(s'.q.jobs, 0) == {1, 2} && s'.q.jobs[1].status == Succeeded && s'.q.jobs[2].status == Cancelled
  {
    ReachableInv(s);
    FirstShelves(s);
    ReachStep(s, Finish(0, Returned));
    s' := Next(s, Finish(0, Returned));
  }

  lemma FirstShelves(s: Sys)
    requires Inv(s) && 0 in s.workers && s.workers[0].job == 1 && s.workers[0].run == Some(0)
    requires 1 in s.q.jobs && 2 in s.q.jobs && s.q.jobs == TwoJobs(s.q.jobs[1], s.q.jobs[2])
    requires HoldsLease(s.q.jobs, 1, 0) && s.q.jobs[2].status == Cancelled
    requires s.q.jobs[1].run == s.q.jobs[2].run == Some(0) && 0 in s.q.runs && s.q.runs[0].status == RunRunning
    ensures Shelved(Next(s, Finish(0, Returned)), 0)
    ensures var jobs' := Next(s, Finish(0, Returned)).q.jobs;
            Children(jobs', 0) == {1, 2} && jobs'[1].status == Succeeded && jobs'[2].status == Cancelled
  {
    var jobs' := JobsAfterFinish(s.q.jobs, s.now, 0, s.workers[0], Returned);
    FirstDone(s.q.jobs, s.now, s.workers[0]);
    OneCancelled(jobs');
    FinishedRunAt(s, 0, Returned, 0);
    CommitIff(s, 0, Returned, 0);
    BecomesShelvedIff(s, Finish(0, Returned), 0);
  }

  lemma FirstDone(jobs: map<Id, Job>, now: Time, c: Claim)
    requires 1 in jobs && 2 in jobs && jobs == TwoJobs(jobs[1], jobs[2]) && HoldsLease(jobs, 1, 0) && c.job == 1
    ensures JobsAfterFinish(jobs, now, 0, c, Returned) == TwoJobs(jobs[1].(status := Succeeded, lease := None), jobs[2])
  {
    assert FinishedRow(jobs[1], now, c, Returned) == jobs[1].(status := Succeeded, lease := None);
  }

  lemma OneCancelled(jobs: map<Id, Job>)
    requires 1 in jobs && 2 in jobs && jobs == TwoJobs(jobs[1], jobs[2]) && jobs[1].run == jobs[2].run == Some(0)
    requires jobs[1].status == Succeeded && jobs[2].status == Cancelled
    ensures Children(jobs, 0) == {1, 2} && AllOver(jobs, 0) && !Settles(jobs, 0)
  {
    assert Children(jobs, 0) == {1, 2};
  }

  // ---------- a manual issuance ----------

  function IssueRow(now: Time): Job {
    Job(Issue, Queued, CertificateScope(0), InitialIssue, Some(0), None, None, None, None, now, now, 0, 5, None, false)
  }

  /** The handler of certificate 0 has saved its challenge and not yet returned. */
  lemma ChallengeSaved(now: Time) returns (s: Sys)
    ensures Reachable(s) && 0 in s.workers && s.workers == map[0 := s.workers[0]] && s.workers[0].job == 0 && s.workers[0].run == None
    ensures HoldsLease(s.q.jobs, 0, 0) && s.q.jobs == OneJob(0, ClaimedRow(IssueRow(now), now, 0, LEASE_DURATION))
    ensures s.now == now && s.q.runs == map[] && IsLatestWaiting(s.q.challenges, 0, 0)
  {
    var b := Batch(map[0 := IssueRow(now)], map[], 1);
    EmptyIsReachable(now);
    ReachStep(Initial(now), Insert(b));
    s := Next(Initial(now), Insert(b));
    assert s.q.jobs == OneJob(0, IssueRow(now)) && s.q.runs == map[];
    s := ClaimOnly(s, 0, 0);
    ReachStep(s, Present(0));
    s := Next(s, Present(0));
  }

  /** The user approves before the worker parks: a reachable state with a stranded job. */
  lemma StrandedIsReachable(now: Time) returns (s: Sys)
    ensures Reachable(s) && Stranded(s, 0) && s.q.jobs[0].kind == Issue && s.q.jobs[0].certificate == Some(0)
  {
    var s0 := ChallengeSaved(now);
    ReachableInv(s0);
    EarlyApprovalStrands(s0, 0, 0, PARK.failure);
    var s1 := Next(s0, Confirm(0, 0));
    ReachStep(s0, Confirm(0, 0));
    ReachStep(s1, Finish(0, PARK));
    s := Next(s1, Finish(0, PARK));
  }
}
