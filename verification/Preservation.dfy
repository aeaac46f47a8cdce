/** Every step keeps the joint invariant. */
module Preservation {
  import opened Rows
  import opened Policy
  import opened System
  import opened Engine
  import opened Invariant

  // ---------- framing ----------

  /** The ledger of a job depends only on its own row and executions. */
  lemma FrameLedger(j: Job, j': Job, execs: map<Id, Execution>, execs': map<Id, Execution>,
                    latest: map<Id, Id>, latest': map<Id, Id>, i: Id)
    requires JobLedger(j, execs, latest, i)
    requires j'.attempt == j.attempt && j'.status == j.status
    requires ExecsOf(execs', i) == ExecsOf(execs, i)
    requires forall e | e in execs && execs[e].job == i :: e in execs' && execs'[e] == execs[e]
    requires forall e | e in execs' && execs'[e].job == i :: e in execs && execs[e].job == i
    requires i in latest ==> i in latest' && latest'[i] == latest[i]
    ensures JobLedger(j', execs', latest', i)
  {
  }

  // ---------- claiming ----------

  lemma ClaimedLedger(j: Job, j': Job, execs: map<Id, Execution>, execs': map<Id, Execution>,
                      latest: map<Id, Id>, id: Id, exec: Id)
    requires JobLedger(j, execs, latest, id) && exec !in execs
    requires j.status == Queued && j'.status == Running && j'.attempt == j.attempt + 1
    requires execs' == execs[exec := Execution(id, ExecRunning, j'.attempt, j'.maxAttempts, None)]
    ensures JobLedger(j', execs', latest[id := exec], id)
  {
    var mine, mine' := ExecsOf(execs, id), ExecsOf(execs', id);
    assert mine' == mine + {exec};
    if j.attempt == 0 {
      assert mine == {};
      assert forall e | e in execs && execs[e].job == id :: e in mine;
    }
  }

  lemma ClaimLedgerAt(q: Queue, latest: map<Id, Id>, now: Time, w: Id, lease: Time, id: Id, i: Id)
    requires q.nextId !in q.execs && id in q.jobs && q.jobs[id].status == Queued
    requires i in q.jobs && JobLedger(q.jobs[i], q.execs, latest, i)
    ensures var q' := ClaimJob(q, now, w, lease, id);
            JobLedger(q'.jobs[i], q'.execs, latest[id := q.nextId], i)
  {
    var q' := ClaimJob(q, now, w, lease, id);
    if i == id {
      ClaimedLedger(q.jobs[id], q'.jobs[id], q.execs, q'.execs, latest, id, q.nextId);
    } else {
      assert ExecsOf(q'.execs, i) == ExecsOf(q.execs, i);
      FrameLedger(q.jobs[i], q'.jobs[i], q.execs, q'.execs, latest, latest[id := q.nextId], i);
    }
  }

  lemma ClaimLedger(q: Queue, latest: map<Id, Id>, now: Time, w: Id, lease: Time, id: Id)
    requires Ledger(q.jobs, q.execs, latest) && q.nextId !in q.execs && id in q.jobs && q.jobs[id].status == Queued
    ensures var q' := ClaimJob(q, now, w, lease, id); Ledger(q'.jobs, q'.execs, latest[id := q.nextId])
  {
    forall i | i in q.jobs {
      ClaimLedgerAt(q, latest, now, w, lease, id, i);
    }
  }

  lemma ClaimRunAt(q: Queue, now: Time, w: Id, lease: Time, id: Id, r: Id)
    requires id in q.jobs && q.jobs[id].status == Queued && r in q.runs && RunOk(q.jobs, r, q.runs[r])
    ensures var q' := ClaimJob(q, now, w, lease, id); RunOk(q'.jobs, r, q'.runs[r])
  {
    var q' := ClaimJob(q, now, w, lease, id);
    assert Children(q'.jobs, r) == Children(q.jobs, r);
    RunStable(q.jobs, q'.jobs, r, q.runs[r], q'.runs[r]);
  }

  lemma TakeKeeps(s: Sys, w: Id, id: Id)
    requires Inv(s) && Enabled(s, Take(w, id))
    ensures Inv(Next(s, Take(w, id)))
  {
    ClaimLedger(s.q, s.latest, s.now, w, LEASE_DURATION, id);
    forall r | r in s.q.runs {
      ClaimRunAt(s.q, s.now, w, LEASE_DURATION, id, r);
    }
    ClaimClaims(s, w, id);
    ClaimRows(s.q, s.now, w, LEASE_DURATION, id);
    ClaimAttempt(s.q, s.latest, s.now, w, LEASE_DURATION, id);
  }

  lemma ClaimRows(q: Queue, now: Time, w: Id, lease: Time, id: Id)
    requires RowsOk(q.jobs, q.execs, q.runs, q.nextId) && id in q.jobs && q.jobs[id].status == Queued
    ensures var q' := ClaimJob(q, now, w, lease, id); RowsOk(q'.jobs, q'.execs, q'.runs, q'.nextId)
  {
  }

  lemma ClaimAttempt(q: Queue, latest: map<Id, Id>, now: Time, w: Id, lease: Time, id: Id)
    requires Ledger(q.jobs, q.execs, latest) && OnePerAttempt(q.execs) && id in q.jobs
    ensures OnePerAttempt(ClaimJob(q, now, w, lease, id).execs)
  {
    AttemptsBounded(q.jobs[id], q.execs, latest, id);
  }

  lemma AttemptsBounded(j: Job, execs: map<Id, Execution>, latest: map<Id, Id>, id: Id)
    requires JobLedger(j, execs, latest, id)
    ensures forall e | e in execs && execs[e].job == id :: 1 <= execs[e].attempt <= j.attempt
  {
    forall e | e in execs && execs[e].job == id
      ensures 1 <= execs[e].attempt <= j.attempt
    {
      assert e in ExecsOf(execs, id);
    }
  }

  /** A claim outdates every other claim on the job. */
  lemma ClaimClaims(s: Sys, w: Id, id: Id)
    requires RowsOk(s.q.jobs, s.q.execs, s.q.runs, s.q.nextId) && Claims(s.q.jobs, s.q.execs, s.now, s.workers) && Enabled(s, Take(w, id))
    ensures var s' := Next(s, Take(w, id)); Claims(s'.q.jobs, s'.q.execs, s'.now, s'.workers)
  {
    var s' := Next(s, Take(w, id));
    forall v | v in s'.workers
      ensures ClaimOk(s'.q.jobs, s'.q.execs, s'.now, v, s'.workers[v])
    {
      if v != w {
        assert ClaimOk(s.q.jobs, s.q.execs, s.now, v, s.workers[v]);
      }
    }
  }

  // ---------- finishing ----------

  /** The one job whose row changed has its run refreshed, which restores every run row. */
  lemma RefreshRunAt(q: Queue, q1: Queue, id: Id, now: Time, r: Id)
    requires id in q.jobs && q1.runs == q.runs && r in q.runs && RunOk(q.jobs, r, q.runs[r])
    requires q1.jobs.Keys == q.jobs.Keys && q1.jobs[id].run == q.jobs[id].run
    requires forall i | i in q.jobs && i != id :: q1.jobs[i] == q.jobs[i]
    requires RunKnown(q1, q.jobs[id].run)
    ensures var q2 := Refresh(q1, q.jobs[id].run, now); RunOk(q2.jobs, r, q2.runs[r])
  {
    assert Children(q1.jobs, r) == Children(q.jobs, r);
    if q.jobs[id].run == Some(r) {
      RefreshedOk(q1.jobs, r, q.runs[r], now);
    } else {
      RunStable(q.jobs, q1.jobs, r, q.runs[r], q.runs[r]);
    }
  }

  /** A finish that holds the lease closes exactly the job's newest execution. */
  lemma HolderHasLatest(q: Queue, latest: map<Id, Id>, now: Time, w: Id, c: Claim)
    requires Ledger(q.jobs, q.execs, latest) && ClaimOk(q.jobs, q.execs, now, w, c) && HoldsLease(q.jobs, c.job, w)
    ensures q.jobs[c.job].attempt == c.attempt && q.jobs[c.job].attempt > 0
    ensures c.job in latest && c.exec == latest[c.job] && q.execs[c.exec].status == ExecRunning
  {
    assert JobLedger(q.jobs[c.job], q.execs, latest, c.job);
    assert c.exec in ExecsOf(q.execs, c.job);
  }

  lemma ClosedLedger(j: Job, j': Job, execs: map<Id, Execution>, latest: map<Id, Id>, id: Id, exec: Id,
                     status: ExecStatus, error: Option<ErrorCode>)
    requires JobLedger(j, execs, latest, id) && j.attempt > 0 && j'.attempt == j.attempt
    requires exec == latest[id] && execs[exec].status == ExecRunning && Mirrors(j'.status, status)
    ensures JobLedger(j', CloseExec(execs, exec, status, error), latest, id)
  {
    assert ExecsOf(CloseExec(execs, exec, status, error), id) == ExecsOf(execs, id);
  }

  lemma CloseLedgerAt(q: Queue, latest: map<Id, Id>, c: Claim, row: Job, status: ExecStatus, error: Option<ErrorCode>, i: Id)
    requires c.job in q.jobs && q.jobs[c.job].attempt > 0 && row.attempt == q.jobs[c.job].attempt
    requires c.job in latest && c.exec == latest[c.job] && c.exec in q.execs && q.execs[c.exec].job == c.job
    requires q.execs[c.exec].status == ExecRunning && Mirrors(row.status, status)
    requires i in q.jobs && JobLedger(q.jobs[i], q.execs, latest, i)
    ensures JobLedger(q.jobs[c.job := row][i], CloseExec(q.execs, c.exec, status, error), latest, i)
  {
    if i == c.job {
      ClosedLedger(q.jobs[i], row, q.execs, latest, i, c.exec, status, error);
    } else {
      var execs' := CloseExec(q.execs, c.exec, status, error);
      assert ExecsOf(execs', i) == ExecsOf(q.execs, i);
      FrameLedger(q.jobs[i], q.jobs[i], q.execs, execs', latest, latest, i);
    }
  }

  /** A stale finish cannot see a running execution: the lease owner and the execution agree. */
  lemma StaleExecIsClosed(q: Queue, latest: map<Id, Id>, now: Time, w: Id, c: Claim)
    requires Ledger(q.jobs, q.execs, latest) && ClaimOk(q.jobs, q.execs, now, w, c) && !HoldsLease(q.jobs, c.job, w)
    ensures q.execs[c.exec].status != ExecRunning
  {
    assert JobLedger(q.jobs[c.job], q.execs, latest, c.job);
    assert c.exec in ExecsOf(q.execs, c.job);
  }

  function FinishedQueue(q: Queue, now: Time, c: Claim, row: Job, status: ExecStatus, error: Option<ErrorCode>): Queue
    requires RunKnown(q, c.run)
  {
    Refresh(q.(jobs := q.jobs[c.job := row], execs := CloseExec(q.execs, c.exec, status, error)), c.run, now)
  }

  predicate Finishes(j: Job, row: Job) {
    && RowShape(row) && row.status != Running
    && row == j.(status := row.status, lease := row.lease, nextRunAt := row.nextRunAt)
  }

  lemma FinishedRows(q: Queue, now: Time, c: Claim, row: Job, status: ExecStatus, error: Option<ErrorCode>)
    requires RowsOk(q.jobs, q.execs, q.runs, q.nextId) && RunKnown(q, c.run) && c.job in q.jobs && Finishes(q.jobs[c.job], row)
    ensures var q' := FinishedQueue(q, now, c, row, status, error); RowsOk(q'.jobs, q'.execs, q'.runs, q'.nextId)
  {
  }

  lemma FinishedClaims(s: Sys, w: Id, row: Job, status: ExecStatus, error: Option<ErrorCode>)
    requires RowsOk(s.q.jobs, s.q.execs, s.q.runs, s.q.nextId) && Claims(s.q.jobs, s.q.execs, s.now, s.workers) && w in s.workers
    requires HoldsLease(s.q.jobs, s.workers[w].job, w) && RunKnown(s.q, s.workers[w].run)
    requires Finishes(s.q.jobs[s.workers[w].job], row)
    ensures var q' := FinishedQueue(s.q, s.now, s.workers[w], row, status, error);
            Claims(q'.jobs, q'.execs, s.now, s.workers - {w})
  {
    var c := s.workers[w];
    var q' := FinishedQueue(s.q, s.now, c, row, status, error);
    forall v | v in s.workers - {w}
      ensures ClaimOk(q'.jobs, q'.execs, s.now, v, s.workers[v])
    {
      assert ClaimOk(s.q.jobs, s.q.execs, s.now, v, s.workers[v]) && ClaimOk(s.q.jobs, s.q.execs, s.now, w, c);
    }
  }

  lemma FinishedLedger(q: Queue, latest: map<Id, Id>, now: Time, w: Id, c: Claim, row: Job, status: ExecStatus, error: Option<ErrorCode>)
    requires Ledger(q.jobs, q.execs, latest) && ClaimOk(q.jobs, q.execs, now, w, c) && HoldsLease(q.jobs, c.job, w) && RunKnown(q, c.run)
    requires Finishes(q.jobs[c.job], row) && Mirrors(row.status, status)
    ensures var q' := FinishedQueue(q, now, c, row, status, error); Ledger(q'.jobs, q'.execs, latest)
  {
    HolderHasLatest(q, latest, now, w, c);
    forall i | i in q.jobs {
      CloseLedgerAt(q, latest, c, row, status, error, i);
    }
  }

  lemma FinishedRuns(q: Queue, now: Time, c: Claim, row: Job, status: ExecStatus, error: Option<ErrorCode>)
    requires RunsOk(q.jobs, q.runs) && c.job in q.jobs && c.run == q.jobs[c.job].run && RunKnown(q, c.run)
    requires Finishes(q.jobs[c.job], row)
    ensures var q' := FinishedQueue(q, now, c, row, status, error); RunsOk(q'.jobs, q'.runs)
  {
    var q1 := q.(jobs := q.jobs[c.job := row], execs := CloseExec(q.execs, c.exec, status, error));
    forall r | r in q.runs {
      RefreshRunAt(q, q1, c.job, now, r);
    }
  }

  lemma CloseAttempt(execs: map<Id, Execution>, exec: Id, status: ExecStatus, error: Option<ErrorCode>)
    requires OnePerAttempt(execs)
    ensures OnePerAttempt(CloseExec(execs, exec, status, error))
  {
  }

  lemma RowChangeKeeps(s: Sys, w: Id, row: Job, status: ExecStatus, error: Option<ErrorCode>)
    requires Inv(s) && w in s.workers
    requires HoldsLease(s.q.jobs, s.workers[w].job, w) && RunKnown(s.q, s.workers[w].run)
    requires Finishes(s.q.jobs[s.workers[w].job], row) && Mirrors(row.status, status)
    ensures QueueInv(FinishedQueue(s.q, s.now, s.workers[w], row, status, error), s.now, s.workers - {w}, s.latest)
  {
    var c := s.workers[w];
    assert ClaimOk(s.q.jobs, s.q.execs, s.now, w, c);
    FinishedRows(s.q, s.now, c, row, status, error);
    FinishedClaims(s, w, row, status, error);
    FinishedLedger(s.q, s.latest, s.now, w, c, row, status, error);
    FinishedRuns(s.q, s.now, c, row, status, error);
    CloseAttempt(s.q.execs, c.exec, status, error);
    assert FinishedQueue(s.q, s.now, c, row, status, error).execs == CloseExec(s.q.execs, c.exec, status, error);
  }

  lemma StaleWaitRuns(q: Queue, now: Time, w: Id, c: Claim, code: ErrorCode)
    requires RunsOk(q.jobs, q.runs) && c.job in q.jobs && c.run == q.jobs[c.job].run && RunKnown(q, c.run) && !HoldsLease(q.jobs, c.job, w)
    ensures var q' := MarkWaiting(q, now, c, w, code).value; RunsOk(q'.jobs, q'.runs)
  {
    forall r | r in q.runs {
      RefreshRunAt(q, q, c.job, now, r);
    }
  }

  /** Without the lease MarkJobWaitingUser changes no job and no execution. */
  lemma StaleWaitOnlyRefreshes(q: Queue, latest: map<Id, Id>, now: Time, w: Id, c: Claim, code: ErrorCode)
    requires Ledger(q.jobs, q.execs, latest) && ClaimOk(q.jobs, q.execs, now, w, c) && RunKnown(q, c.run) && !HoldsLease(q.jobs, c.job, w)
    ensures MarkWaiting(q, now, c, w, code) == Some(Refresh(q, c.run, now))
  {
    StaleExecIsClosed(q, latest, now, w, c);
  }

  lemma RefreshRows(q: Queue, run: Option<Id>, now: Time)
    requires RowsOk(q.jobs, q.execs, q.runs, q.nextId) && RunKnown(q, run)
    ensures RowsOk(q.jobs, q.execs, Refresh(q, run, now).runs, q.nextId)
  {
  }

  lemma FewerClaims(jobs: map<Id, Job>, execs: map<Id, Execution>, now: Time, workers: map<Id, Claim>, w: Id)
    requires Claims(jobs, execs, now, workers)
    ensures Claims(jobs, execs, now, workers - {w})
  {
  }

  lemma StaleWaitKeeps(s: Sys, w: Id, code: ErrorCode)
    requires Inv(s) && w in s.workers && !HoldsLease(s.q.jobs, s.workers[w].job, w) && RunKnown(s.q, s.workers[w].run)
    ensures QueueInv(MarkWaiting(s.q, s.now, s.workers[w], w, code).value, s.now, s.workers - {w}, s.latest)
  {
    var c := s.workers[w];
    assert ClaimOk(s.q.jobs, s.q.execs, s.now, w, c);
    StaleWaitOnlyRefreshes(s.q, s.latest, s.now, w, c, code);
    StaleWaitRuns(s.q, s.now, w, c, code);
    RefreshRows(s.q, c.run, s.now);
    FewerClaims(s.q.jobs, s.q.execs, s.now, s.workers, w);
  }

  // ---------- what a finish does to the row it owns ----------

  function FinishedRow(j: Job, now: Time, c: Claim, result: HandlerResult): Job {
    if result.Returned? then j.(status := Succeeded, lease := None)
    else match PlanFor(ToFailure(result), c.attempt, c.maxAttempts)
         case PlanWait => j.(status := WaitingUser, lease := None)
         case PlanFail(retry) => FailedRow(j, now, retry)
  }

  function FinishedExec(c: Claim, result: HandlerResult): ExecStatus {
    if result.Returned? then ExecSucceeded
    else if PlanFor(ToFailure(result), c.attempt, c.maxAttempts).PlanWait? then ExecWaiting else ExecFailed
  }

  function FinishedError(result: HandlerResult): Option<ErrorCode> {
    if result.Returned? then None else Some(HandlerCode(ToFailure(result).code))
  }

  lemma HeldFinish(q: Queue, now: Time, c: Claim, w: Id, result: HandlerResult)
    requires HoldsLease(q.jobs, c.job, w) && RunKnown(q, c.run) && RowShape(q.jobs[c.job])
    ensures var row := FinishedRow(q.jobs[c.job], now, c, result);
            && Finishes(q.jobs[c.job], row) && Mirrors(row.status, FinishedExec(c, result))
            && FinishTx(q, now, c, w, result) == Some(FinishedQueue(q, now, c, row, FinishedExec(c, result), FinishedError(result)))
  {
  }

  /** Only parking for the user gets past a lost lease. */
  lemma StaleFinish(q: Queue, now: Time, c: Claim, w: Id, result: HandlerResult)
    requires !HoldsLease(q.jobs, c.job, w)
    ensures var tx := FinishTx(q, now, c, w, result);
            tx.Some? ==> RunKnown(q, c.run) && !result.Returned?
                         && tx == MarkWaiting(q, now, c, w, HandlerCode(ToFailure(result).code))
  {
  }

  function JobsAfterFinish(jobs: map<Id, Job>, now: Time, w: Id, c: Claim, result: HandlerResult): map<Id, Job> {
    if HoldsLease(jobs, c.job, w) then jobs[c.job := FinishedRow(jobs[c.job], now, c, result)] else jobs
  }

  function ExecsAfterFinish(q: Queue, w: Id, c: Claim, result: HandlerResult): map<Id, Execution> {
    if HoldsLease(q.jobs, c.job, w) then CloseExec(q.execs, c.exec, FinishedExec(c, result), FinishedError(result)) else q.execs
  }

  /** What a committed finish leaves in the two tables, whichever of the three calls it was. */
  lemma FinishEffect(q: Queue, latest: map<Id, Id>, now: Time, w: Id, c: Claim, result: HandlerResult)
    requires Ledger(q.jobs, q.execs, latest) && ClaimOk(q.jobs, q.execs, now, w, c) && RowShape(q.jobs[c.job])
    ensures var tx := FinishTx(q, now, c, w, result);
            tx.Some? ==>
              && RunKnown(q, c.run)
              && tx.value == Refresh(q.(jobs := JobsAfterFinish(q.jobs, now, w, c, result),
                                        execs := ExecsAfterFinish(q, w, c, result)), c.run, now)
  {
    if FinishTx(q, now, c, w, result).Some? {
      if HoldsLease(q.jobs, c.job, w) {
        HeldFinish(q, now, c, w, result);
      } else {
        StaleFinish(q, now, c, w, result);
        StaleWaitOnlyRefreshes(q, latest, now, w, c, HandlerCode(ToFailure(result).code));
      }
    }
  }

  lemma FinishKeeps(s: Sys, w: Id, result: HandlerResult)
    requires Inv(s) && w in s.workers
    ensures var tx := FinishTx(s.q, s.now, s.workers[w], w, result);
            QueueInv(if tx.Some? then tx.value else s.q, s.now, s.workers - {w}, s.latest)
  {
    var c := s.workers[w];
    if FinishTx(s.q, s.now, c, w, result).None? {
      FewerClaims(s.q.jobs, s.q.execs, s.now, s.workers, w);
    } else if HoldsLease(s.q.jobs, c.job, w) {
      HeldFinish(s.q, s.now, c, w, result);
      RowChangeKeeps(s, w, FinishedRow(s.q.jobs[c.job], s.now, c, result), FinishedExec(c, result), FinishedError(result));
    } else {
      StaleFinish(s.q, s.now, c, w, result);
      StaleWaitKeeps(s, w, HandlerCode(ToFailure(result).code));
    }
  }

  // ---------- recovery ----------

  lemma RecoverLedgerAt(q: Queue, latest: map<Id, Id>, now: Time, delay: Time, ids: set<Id>, i: Id)
    requires i in ids ==> i in q.jobs && q.jobs[i].status == Running && q.jobs[i].attempt > 0
    requires i in q.jobs && JobLedger(q.jobs[i], q.execs, latest, i)
    ensures var q' := RecoverSet(q, now, delay, ids); JobLedger(q'.jobs[i], q'.execs, latest, i)
  {
    var q' := RecoverSet(q, now, delay, ids);
    assert ExecsOf(q'.execs, i) == ExecsOf(q.execs, i);
  }

  lemma RecoverRunAt(q: Queue, now: Time, delay: Time, ids: set<Id>, r: Id)
    requires forall i | i in ids :: i in q.jobs && q.jobs[i].status == Running
    requires r in q.runs && RunOk(q.jobs, r, q.runs[r])
    ensures RunOk(RecoverSet(q, now, delay, ids).jobs, r, q.runs[r])
  {
    var q' := RecoverSet(q, now, delay, ids);
    assert Children(q'.jobs, r) == Children(q.jobs, r);
    RunStable(q.jobs, q'.jobs, r, q.runs[r], q.runs[r]);
  }

  lemma RecoverRows(q: Queue, now: Time, delay: Time, ids: set<Id>)
    requires RowsOk(q.jobs, q.execs, q.runs, q.nextId)
    requires forall i | i in ids :: i in q.jobs && q.jobs[i].status == Running
    ensures var q' := RecoverSet(q, now, delay, ids); RowsOk(q'.jobs, q'.execs, q'.runs, q'.nextId)
  {
  }

  /** Recovering expired rows hurts no unexpired claim. */
  lemma RecoverClaims(q: Queue, now: Time, delay: Time, workers: map<Id, Claim>, ids: set<Id>)
    requires Claims(q.jobs, q.execs, now, workers)
    requires forall i | i in ids :: i in q.jobs && Expired(q.jobs[i], now)
    ensures var q' := RecoverSet(q, now, delay, ids); Claims(q'.jobs, q'.execs, now, workers)
  {
    var q' := RecoverSet(q, now, delay, ids);
    forall v | v in workers
      ensures ClaimOk(q'.jobs, q'.execs, now, v, workers[v])
    {
      assert ClaimOk(q.jobs, q.execs, now, v, workers[v]);
      RecoverClaimAt(q, now, delay, v, workers[v], ids);
    }
  }

  lemma RecoverClaimAt(q: Queue, now: Time, delay: Time, v: Id, c: Claim, ids: set<Id>)
    requires ClaimOk(q.jobs, q.execs, now, v, c)
    requires forall i | i in ids :: i in q.jobs && Expired(q.jobs[i], now)
    ensures var q' := RecoverSet(q, now, delay, ids); ClaimOk(q'.jobs, q'.execs, now, v, c)
  {
  }

  lemma RecoverAttempt(q: Queue, now: Time, delay: Time, ids: set<Id>)
    requires OnePerAttempt(q.execs)
    ensures OnePerAttempt(RecoverSet(q, now, delay, ids).execs)
  {
  }

  lemma RecoverKeeps(q: Queue, now: Time, delay: Time, workers: map<Id, Claim>, latest: map<Id, Id>, ids: set<Id>)
    requires QueueInv(q, now, workers, latest)
    requires forall i | i in ids :: i in q.jobs && Expired(q.jobs[i], now)
    ensures QueueInv(RecoverSet(q, now, delay, ids), now, workers, latest)
  {
    forall i | i in q.jobs {
      RecoverLedgerAt(q, latest, now, delay, ids, i);
    }
    forall r | r in q.runs {
      RecoverRunAt(q, now, delay, ids, r);
    }
    RecoverRows(q, now, delay, ids);
    RecoverClaims(q, now, delay, workers, ids);
    RecoverAttempt(q, now, delay, ids);
  }

  // ---------- approval, cancellation, insertion ----------

  lemma ApproveKeeps(q: Queue, now: Time, workers: map<Id, Claim>, latest: map<Id, Id>, job: Id)
    requires QueueInv(q, now, workers, latest) && job in q.challenges
    ensures QueueInv(Approve(q, now, job), now, workers, latest)
  {
    if job in q.jobs && q.jobs[job].status == WaitingUser {
      var q' := Approve(q, now, job);
      forall i | i in q.jobs {
        RequeueLedgerAt(q.jobs, q.execs, latest, job, now, i);
      }
      forall r | r in q.runs {
        RequeueRunAt(q.jobs, job, now, r, q.runs[r]);
      }
      RequeueClaims(q.jobs, q.execs, now, workers, job);
      RequeueRows(q, now, job);
    }
  }

  function Requeued(jobs: map<Id, Job>, job: Id, now: Time): map<Id, Job>
    requires job in jobs
  {
    jobs[job := jobs[job].(status := Queued, nextRunAt := now)]
  }

  lemma RequeueLedgerAt(jobs: map<Id, Job>, execs: map<Id, Execution>, latest: map<Id, Id>, job: Id, now: Time, i: Id)
    requires job in jobs && jobs[job].status == WaitingUser && i in jobs && JobLedger(jobs[i], execs, latest, i)
    ensures JobLedger(Requeued(jobs, job, now)[i], execs, latest, i)
  {
  }

  lemma RequeueRunAt(jobs: map<Id, Job>, job: Id, now: Time, r: Id, run: Run)
    requires job in jobs && jobs[job].status == WaitingUser && RunOk(jobs, r, run)
    ensures RunOk(Requeued(jobs, job, now), r, run)
  {
    var jobs' := Requeued(jobs, job, now);
    assert Children(jobs', r) == Children(jobs, r);
    RunStable(jobs, jobs', r, run, run);
  }

  lemma RequeueClaims(jobs: map<Id, Job>, execs: map<Id, Execution>, now: Time, workers: map<Id, Claim>, job: Id)
    requires Claims(jobs, execs, now, workers) && job in jobs && jobs[job].status == WaitingUser
    ensures Claims(Requeued(jobs, job, now), execs, now, workers)
  {
    forall v | v in workers
      ensures ClaimOk(Requeued(jobs, job, now), execs, now, v, workers[v])
    {
      assert ClaimOk(jobs, execs, now, v, workers[v]);
    }
  }

  lemma RequeueRows(q: Queue, now: Time, job: Id)
    requires RowsOk(q.jobs, q.execs, q.runs, q.nextId) && job in q.jobs && q.jobs[job].status == WaitingUser
    ensures RowsOk(Requeued(q.jobs, job, now), q.execs, q.runs, q.nextId)
  {
  }

  lemma CancelRunAt(q: Queue, now: Time, task: Id, r: Id)
    requires RowsOk(q.jobs, q.execs, q.runs, q.nextId) && r in q.runs && RunOk(q.jobs, r, q.runs[r])
    ensures var q' := CancelTask(q, now, task); RunOk(q'.jobs, r, q'.runs[r])
  {
    var q' := CancelTask(q, now, task);
    assert Children(q'.jobs, r) == Children(q.jobs, r);
    forall i | i in Children(q.jobs, r)
      ensures Allowed(q'.runs[r].status, q'.jobs[i].status)
    {
      assert q.jobs[i].task == Some(q.runs[r].task);
    }
    RunStable(q.jobs, q'.jobs, r, q.runs[r], q'.runs[r]);
  }

  lemma CancelRows(q: Queue, now: Time, task: Id)
    requires RowsOk(q.jobs, q.execs, q.runs, q.nextId)
    ensures var q' := CancelTask(q, now, task); RowsOk(q'.jobs, q'.execs, q'.runs, q'.nextId)
  {
  }

  lemma CancelClaims(q: Queue, now: Time, workers: map<Id, Claim>, task: Id)
    requires Claims(q.jobs, q.execs, now, workers)
    ensures var q' := CancelTask(q, now, task); Claims(q'.jobs, q'.execs, now, workers)
  {
    var q' := CancelTask(q, now, task);
    forall v | v in workers
      ensures ClaimOk(q'.jobs, q'.execs, now, v, workers[v])
    {
      assert ClaimOk(q.jobs, q.execs, now, v, workers[v]);
    }
  }

  lemma CancelLedgerAt(q: Queue, latest: map<Id, Id>, now: Time, task: Id, i: Id)
    requires i in q.jobs && JobLedger(q.jobs[i], q.execs, latest, i)
    ensures JobLedger(CancelTask(q, now, task).jobs[i], q.execs, latest, i)
  {
  }

  lemma CancelKeeps(q: Queue, now: Time, workers: map<Id, Claim>, latest: map<Id, Id>, task: Id)
    requires QueueInv(q, now, workers, latest)
    ensures QueueInv(CancelTask(q, now, task), now, workers, latest)
  {
    forall i | i in q.jobs {
      CancelLedgerAt(q, latest, now, task, i);
    }
    forall r | r in q.runs {
      CancelRunAt(q, now, task, r);
    }
    CancelRows(q, now, task);
    CancelClaims(q, now, workers, task);
  }

  lemma InsertRunAt(q: Queue, now: Time, b: Batch, r: Id)
    requires RowsOk(q.jobs, q.execs, q.runs, q.nextId) && GoodBatch(q, now, b)
    requires r in q.runs ==> RunOk(q.jobs, r, q.runs[r])
    requires r in q.runs || r in b.runs
    ensures var q' := Enqueue(q, b); RunOk(q'.jobs, r, q'.runs[r])
  {
    if r in q.runs {
      InsertOldRunAt(q, now, b, r);
    } else {
      InsertNewRunAt(q, now, b, r);
    }
  }

  lemma InsertOldRunAt(q: Queue, now: Time, b: Batch, r: Id)
    requires RowsOk(q.jobs, q.execs, q.runs, q.nextId) && GoodBatch(q, now, b)
    requires r in q.runs && RunOk(q.jobs, r, q.runs[r])
    ensures var q' := Enqueue(q, b); RunOk(q'.jobs, r, q'.runs[r])
  {
    var q' := Enqueue(q, b);
    assert r !in b.runs;
    assert Children(q'.jobs, r) == Children(q.jobs, r);
    RunStable(q.jobs, q'.jobs, r, q.runs[r], q'.runs[r]);
  }

  lemma InsertNewRunAt(q: Queue, now: Time, b: Batch, r: Id)
    requires RowsOk(q.jobs, q.execs, q.runs, q.nextId) && GoodBatch(q, now, b) && r !in q.runs && r in b.runs
    ensures var q' := Enqueue(q, b); RunOk(q'.jobs, r, q'.runs[r])
  {
    var q' := Enqueue(q, b);
    assert Children(q'.jobs, r) == Children(b.jobs, r);
    assert ChildrenIn(q'.jobs, r, {Succeeded}) == {};
  }

  lemma InsertRows(q: Queue, now: Time, b: Batch)
    requires RowsOk(q.jobs, q.execs, q.runs, q.nextId) && GoodBatch(q, now, b)
    ensures var q' := Enqueue(q, b); RowsOk(q'.jobs, q'.execs, q'.runs, q'.nextId)
  {
  }

  lemma InsertLedgerAt(q: Queue, latest: map<Id, Id>, now: Time, b: Batch, i: Id)
    requires RowsOk(q.jobs, q.execs, q.runs, q.nextId) && Ledger(q.jobs, q.execs, latest) && GoodBatch(q, now, b)
    requires i in q.jobs || i in b.jobs
    ensures JobLedger(Enqueue(q, b).jobs[i], q.execs, latest, i)
  {
    if i in b.jobs {
      assert i !in q.jobs;
      assert ExecsOf(q.execs, i) == {};
    }
  }

  lemma InsertClaims(q: Queue, now: Time, workers: map<Id, Claim>, b: Batch)
    requires RowsOk(q.jobs, q.execs, q.runs, q.nextId) && Claims(q.jobs, q.execs, now, workers) && GoodBatch(q, now, b)
    ensures Claims(Enqueue(q, b).jobs, q.execs, now, workers)
  {
    forall v | v in workers
      ensures ClaimOk(Enqueue(q, b).jobs, q.execs, now, v, workers[v])
    {
      assert ClaimOk(q.jobs, q.execs, now, v, workers[v]);
    }
  }

  lemma InsertKeeps(q: Queue, now: Time, workers: map<Id, Claim>, latest: map<Id, Id>, b: Batch)
    requires QueueInv(q, now, workers, latest) && GoodBatch(q, now, b)
    ensures QueueInv(Enqueue(q, b), now, workers, latest)
  {
    forall i | i in q.jobs || i in b.jobs {
      InsertLedgerAt(q, latest, now, b, i);
    }
    forall r | r in q.runs || r in b.runs {
      InsertRunAt(q, now, b, r);
    }
    InsertRows(q, now, b);
    InsertClaims(q, now, workers, b);
  }

  // ---------- all steps ----------

  lemma AdvanceKeeps(jobs: map<Id, Job>, execs: map<Id, Execution>, now: Time, to: Time, workers: map<Id, Claim>)
    requires Claims(jobs, execs, now, workers) && now <= to
    ensures Claims(jobs, execs, to, workers)
  {
    forall v | v in workers
      ensures ClaimOk(jobs, execs, to, v, workers[v])
    {
      assert ClaimOk(jobs, execs, now, v, workers[v]);
    }
  }

  lemma StepKeeps(s: Sys, step: Step)
    requires Inv(s) && Enabled(s, step)
    ensures Inv(Next(s, step))
  {
    match step
    case Advance(to) => AdvanceKeeps(s.q.jobs, s.q.execs, s.now, to, s.workers);
    case Recover(ids) =>
      RecoveryIsOneUpdate(s.q, s.now, RetryDelay(1), ids);
      RecoverKeeps(s.q, s.now, RetryDelay(1), s.workers, s.latest, Elements(ids));
    case Take(w, id) => TakeKeeps(s, w, id);
    case Finish(w, result) => FinishKeeps(s, w, result);
    case Abandon(w) => FewerClaims(s.q.jobs, s.q.execs, s.now, s.workers, w);
    case Present(_) =>
    case Confirm(_, job) => ApproveKeeps(s.q, s.now, s.workers, s.latest, job);
    case Cancel(task) => CancelKeeps(s.q, s.now, s.workers, s.latest, task);
    case Insert(b) => InsertKeeps(s.q, s.now, s.workers, s.latest, b);
  }

  /** Every state of every run of the system satisfies the invariant. */
  lemma {:induction false} RunKeeps(s: Sys, steps: seq<Step>)
    requires Inv(s) && Valid(s, steps)
    ensures Inv(After(s, steps))
    decreases |steps|
  {
    if steps != [] {
      StepKeeps(s, steps[0]);
      RunKeeps(Next(s, steps[0]), steps[1..]);
    }
  }
}
