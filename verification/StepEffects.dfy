/** What each step of the engine writes, row by row, in the terms of the tables. */
module StepEffects {
  import opened Rows
  import opened Policy
  import opened System
  import opened Engine
  import opened Invariant
  import opened Preservation
  import opened EngineTheorems
  import opened RunTheorems
  import Approval

  // ---------- claims ----------

  /** A queued, due job nobody has asked to cancel. */
  predicate Waiting(j: Job, now: Time) {
    j.status == Queued && j.nextRunAt <= now && !j.cancelRequested
  }

  /** An idle worker may claim a job if and only if the job waits and no waiting job comes before it,
      by due time and then by age. */
  lemma ClaimsIff(s: Sys, w: Id, i: Id)
    ensures Enabled(s, Take(w, i))
            <==> && w !in s.workers && i in s.q.jobs && Waiting(s.q.jobs[i], s.now)
                 && forall k | k in s.q.jobs && Waiting(s.q.jobs[k], s.now) ::
                      var a, b := s.q.jobs[i], s.q.jobs[k];
                      a.nextRunAt < b.nextRunAt || (a.nextRunAt == b.nextRunAt && a.createdAt <= b.createdAt)
  {
  }

  /** A claim takes one job for a quarter of an hour, opens an execution for the new attempt and hands the
      worker what the row says. */
  lemma ClaimWrites(s: Sys, w: Id, i: Id)
    requires Enabled(s, Take(w, i)) && Inv(s)
    ensures var s', j := Next(s, Take(w, i)), s.q.jobs[i];
            var c := s'.workers[w];
            && s'.q.jobs == s.q.jobs[i := j.(status := Running, attempt := j.attempt + 1, lease := Some(Lease(w, s.now + 900)))]
            && c.exec !in s.q.execs
            && s'.q.execs == s.q.execs[c.exec := Execution(i, ExecRunning, j.attempt + 1, j.maxAttempts, None)]
            && c == Claim(i, c.exec, j.kind, j.attempt + 1, j.maxAttempts, j.certificate, j.target, j.task, j.run, s.now + 900)
            && s'.workers == s.workers[w := c] && s'.q.challenges == s.q.challenges
  {
    NextIsFresh(s);
    TakeWrites(s, w, i);
  }

  lemma TakeWrites(s: Sys, w: Id, i: Id)
    requires Enabled(s, Take(w, i))
    ensures var s', j, e := Next(s, Take(w, i)), s.q.jobs[i], s.q.nextId;
            && s'.q.jobs == s.q.jobs[i := j.(status := Running, attempt := j.attempt + 1, lease := Some(Lease(w, s.now + 900)))]
            && s'.q.execs == s.q.execs[e := Execution(i, ExecRunning, j.attempt + 1, j.maxAttempts, None)]
            && s'.workers == s.workers[w := Claim(i, e, j.kind, j.attempt + 1, j.maxAttempts, j.certificate, j.target,
                                                  j.task, j.run, s.now + 900)]
            && s'.q.challenges == s.q.challenges
  {
  }

  lemma NextIsFresh(s: Sys)
    requires Inv(s)
    ensures s.q.nextId !in s.q.execs
  {
  }

  /** Its run, if queued, is shown as running. */
  lemma ClaimShowsRun(s: Sys, w: Id, i: Id, r: Id)
    requires Enabled(s, Take(w, i)) && r in s.q.runs
    ensures var runs' := Next(s, Take(w, i)).q.runs;
            && runs'.Keys == s.q.runs.Keys
            && runs'[r] == if s.q.jobs[i].run == Some(r) && s.q.runs[r].status == RunQueued
                           then s.q.runs[r].(status := RunRunning) else s.q.runs[r]
  {
  }

  // ---------- how a job ends an attempt ----------

  /** The waiting times in seconds. */
  function Backoff(attempt: nat): Time {
    if attempt <= 1 then 60 else if attempt == 2 then 300 else if attempt == 3 then 900
    else if attempt == 4 then 3600 else 14400
  }

  lemma BackoffIs(attempt: nat)
    ensures RetryDelay(attempt) == Backoff(attempt)
  {
    assert SCHEDULE == [60, 300, 900, 3600, 14400];
  }

  /** The row a job is left with when its handler ends like this under a lease it still holds. */
  function Left(j: Job, now: Time, result: HandlerResult): Job {
    var retried := (after: Time) => if j.attempt < j.maxAttempts then j.(status := Queued, lease := None, nextRunAt := now + after)
                                    else j.(status := Failed, lease := None);
    match result
    case Returned => j.(status := Succeeded, lease := None)
    case Panicked => j.(status := Failed, lease := None)
    case Unclassified => retried(Backoff(j.attempt))
    case Classified(f) =>
      if f.waitingUser then j.(status := WaitingUser, lease := None)
      else if !f.retryable then j.(status := Failed, lease := None)
      else retried(if f.retryAfter > 0 then f.retryAfter else Backoff(j.attempt))
  }

  /** The record of the attempt. */
  function Recorded(x: Execution, result: HandlerResult): Execution {
    match result
    case Returned => x.(status := ExecSucceeded, error := None)
    case Panicked => x.(status := ExecFailed, error := Some(HandlerCode("handler_panic")))
    case Unclassified => x.(status := ExecFailed, error := Some(HandlerCode("execution_failed")))
    case Classified(f) =>
      x.(status := if f.waitingUser then ExecWaiting else ExecFailed,
         error := Some(HandlerCode(if f.code == "" then "execution_failed" else f.code)))
  }

  lemma LeftIs(j: Job, now: Time, c: Claim, result: HandlerResult)
    requires c.attempt == j.attempt && c.maxAttempts == j.maxAttempts
    ensures FinishedRow(j, now, c, result) == Left(j, now, result)
  {
    BackoffIs(j.attempt);
  }

  lemma HeldRecords(s: Sys, w: Id, result: HandlerResult)
    requires Inv(s) && w in s.workers && HoldsLease(s.q.jobs, s.workers[w].job, w)
    ensures var c := s.workers[w];
            && c.job in s.q.jobs && c.exec in s.q.execs && c.attempt == s.q.jobs[c.job].attempt
            && c.maxAttempts == s.q.jobs[c.job].maxAttempts && s.q.execs[c.exec].status == ExecRunning
            && RunKnown(s.q, c.run)
  {
    HeldClaim(s, w);
    HolderHasLatest(s.q, s.latest, s.now, w, s.workers[w]);
    Approval.ClaimRunKnown(s, w);
  }

  /** A finish under a held lease: the job row and the execution of the claim, and no others. */
  lemma FinishWrites(s: Sys, w: Id, result: HandlerResult)
    requires Inv(s) && w in s.workers && HoldsLease(s.q.jobs, s.workers[w].job, w)
    ensures var c, q' := s.workers[w], Next(s, Finish(w, result)).q;
            && c.job in s.q.jobs && c.exec in s.q.execs
            && q'.jobs == s.q.jobs[c.job := Left(s.q.jobs[c.job], s.now, result)]
            && q'.execs == s.q.execs[c.exec := Recorded(s.q.execs[c.exec], result)]
  {
    HeldRecords(s, w, result);
    HeldClaim(s, w);
    HeldFinishWrites(s.q, s.now, s.workers[w], w, result);
    NextFinish(s, w, result);
  }

  lemma HeldFinishWrites(q: Queue, now: Time, c: Claim, w: Id, result: HandlerResult)
    requires HoldsLease(q.jobs, c.job, w) && RunKnown(q, c.run) && RowShape(q.jobs[c.job])
    requires c.attempt == q.jobs[c.job].attempt && c.maxAttempts == q.jobs[c.job].maxAttempts
    requires c.exec in q.execs && q.execs[c.exec].status == ExecRunning
    ensures var tx := FinishTx(q, now, c, w, result);
            && tx.Some? && tx.value.jobs == q.jobs[c.job := Left(q.jobs[c.job], now, result)]
            && tx.value.execs == q.execs[c.exec := Recorded(q.execs[c.exec], result)]
  {
    HeldFinish(q, now, c, w, result);
    LeftIs(q.jobs[c.job], now, c, result);
  }

  // ---------- how a run is shown ----------

  ghost predicate HasChild(jobs: map<Id, Job>, r: Id, status: JobStatus) {
    exists i :: i in jobs && jobs[i].run == Some(r) && jobs[i].status == status
  }

  /** The state of a run, read off its jobs: waiting beats working, work in progress beats any result,
      and a failed job spoils the success of the others. */
  ghost function Shown(jobs: map<Id, Job>, r: Id): RunStatus {
    if HasChild(jobs, r, WaitingUser) then RunWaiting
    else if HasChild(jobs, r, Queued) || HasChild(jobs, r, Running) then RunRunning
    else if HasChild(jobs, r, Failed) then (if HasChild(jobs, r, Succeeded) then RunPartial else RunFailed)
    else if HasChild(jobs, r, Succeeded) && !HasChild(jobs, r, Cancelled) then RunSucceeded
    else RunQueued
  }

  lemma ChildrenInAre(jobs: map<Id, Job>, r: Id, statuses: set<JobStatus>)
    ensures |ChildrenIn(jobs, r, statuses)| > 0 <==> exists status :: status in statuses && HasChild(jobs, r, status)
  {
    if status :| status in statuses && HasChild(jobs, r, status) {
      var i :| i in jobs && jobs[i].run == Some(r) && jobs[i].status == status;
      assert i in ChildrenIn(jobs, r, statuses);
    }
    if ChildrenIn(jobs, r, statuses) != {} {
      var i :| i in ChildrenIn(jobs, r, statuses);
      assert HasChild(jobs, r, jobs[i].status);
    }
  }

  lemma AllSucceeded(jobs: map<Id, Job>, r: Id)
    ensures |ChildrenIn(jobs, r, {Succeeded})| == |Children(jobs, r)|
            <==> forall i | i in jobs && jobs[i].run == Some(r) :: jobs[i].status == Succeeded
  {
    CardSubset(ChildrenIn(jobs, r, {Succeeded}), Children(jobs, r));
    if forall i | i in jobs && jobs[i].run == Some(r) :: jobs[i].status == Succeeded {
      assert ChildrenIn(jobs, r, {Succeeded}) == Children(jobs, r);
    } else {
      var i :| i in jobs && jobs[i].run == Some(r) && jobs[i].status != Succeeded;
      assert i in Children(jobs, r) && i !in ChildrenIn(jobs, r, {Succeeded});
    }
  }

  lemma VerdictShows(jobs: map<Id, Job>, r: Id)
    requires Children(jobs, r) != {}
    ensures VerdictOf(jobs, r).0 == Shown(jobs, r)
    ensures VerdictOf(jobs, r).1 <==> Shown(jobs, r) in {RunPartial, RunFailed, RunSucceeded}
  {
    ChildrenInAre(jobs, r, {WaitingUser});
    ChildrenInAre(jobs, r, {Queued, Running});
    ChildrenInAre(jobs, r, {Failed});
    ChildrenInAre(jobs, r, {Succeeded});
    AllSucceeded(jobs, r);
    OnlyOneStatus(jobs, r);
  }

  lemma OnlyOneStatus(jobs: map<Id, Job>, r: Id)
    requires Children(jobs, r) != {}
    ensures !HasChild(jobs, r, WaitingUser) && !HasChild(jobs, r, Queued) && !HasChild(jobs, r, Running) && !HasChild(jobs, r, Failed) ==>
            ((forall i | i in jobs && jobs[i].run == Some(r) :: jobs[i].status == Succeeded)
             <==> HasChild(jobs, r, Succeeded) && !HasChild(jobs, r, Cancelled))
  {
    var i :| i in Children(jobs, r);
    assert HasChild(jobs, r, jobs[i].status);
  }

  /** The run row a refresh writes: the state and the counters read off the jobs, and the time at which it
      was found finished. */
  ghost function Recounted(run: Run, jobs: map<Id, Job>, r: Id, now: Time): Run {
    Run(run.task, run.certificate, run.version, Shown(jobs, r),
        |set i | i in jobs && jobs[i].run == Some(r)|,
        |set i | i in jobs && jobs[i].run == Some(r) && jobs[i].status == Succeeded|,
        |set i | i in jobs && jobs[i].run == Some(r) && jobs[i].status == Failed|,
        if Shown(jobs, r) in {RunPartial, RunFailed, RunSucceeded} then Some(now) else None)
  }

  lemma RefreshRecounts(jobs: map<Id, Job>, r: Id, run: Run, now: Time)
    requires Children(jobs, r) != {}
    ensures RefreshedRun(jobs, r, run, now) == Recounted(run, jobs, r, now)
  {
    VerdictShows(jobs, r);
    assert Children(jobs, r) == set i | i in jobs && jobs[i].run == Some(r);
    assert ChildrenIn(jobs, r, {Succeeded}) == set i | i in jobs && jobs[i].run == Some(r) && jobs[i].status == Succeeded;
    assert ChildrenIn(jobs, r, {Failed}) == set i | i in jobs && jobs[i].run == Some(r) && jobs[i].status == Failed;
  }

  /** The finish gets through: the lease still holds, or the handler waits for the user. */
  predicate GetsThrough(s: Sys, w: Id, result: HandlerResult)
    requires w in s.workers
  {
    HoldsLease(s.q.jobs, s.workers[w].job, w) || (result.Classified? && result.failure.waitingUser)
  }

  lemma GetsThroughIff(q: Queue, now: Time, c: Claim, w: Id, result: HandlerResult)
    requires RunKnown(q, c.run)
    ensures FinishTx(q, now, c, w, result).Some?
            <==> HoldsLease(q.jobs, c.job, w) || (result.Classified? && result.failure.waitingUser)
  {
  }

  lemma StillAChild(s: Sys, w: Id, result: HandlerResult, r: Id)
    requires w in s.workers && r in s.q.runs && Inv(s)
    ensures Children(Next(s, Finish(w, result)).q.jobs, r) != {}
  {
    StepKeeps(s, Finish(w, result));
    FinishedRuns(s, w, result, r);
    assert RunOk(Next(s, Finish(w, result)).q.jobs, r, Next(s, Finish(w, result)).q.runs[r]);
  }

  lemma FinishedRuns(s: Sys, w: Id, result: HandlerResult, r: Id)
    requires w in s.workers && r in s.q.runs && Inv(s)
    ensures var q' := Next(s, Finish(w, result)).q;
            && r in q'.runs
            && q'.runs[r] == if s.workers[w].run == Some(r) && GetsThrough(s, w, result)
                             then RefreshedRun(q'.jobs, r, s.q.runs[r], s.now) else s.q.runs[r]
  {
    HeldClaim(s, w);
    Approval.ClaimRunKnown(s, w);
    GetsThroughIff(s.q, s.now, s.workers[w], w, result);
    FinishTxRun(s.q, s.latest, s.now, w, s.workers[w], result, r);
    NextFinish(s, w, result);
  }

  /** A finish that gets through leaves the run of its job with the state and the counters its jobs have
      now; every other run, and every run after a finish that does not, stays as it was. */
  lemma FinishShowsRun(s: Sys, w: Id, result: HandlerResult, r: Id)
    requires w in s.workers && r in s.q.runs && Inv(s)
    ensures var q' := Next(s, Finish(w, result)).q;
            && r in q'.runs
            && q'.runs[r] == if s.workers[w].run == Some(r) && GetsThrough(s, w, result)
                             then Recounted(s.q.runs[r], q'.jobs, r, s.now) else s.q.runs[r]
  {
    FinishedRuns(s, w, result, r);
    StillAChild(s, w, result, r);
    RefreshRecounts(Next(s, Finish(w, result)).q.jobs, r, s.q.runs[r], s.now);
  }

  // ---------- recovery ----------

  /** A lost lease: the job fails with its last attempt and waits a minute before any other. */
  function Recovered(j: Job, now: Time): Job {
    if j.attempt >= j.maxAttempts then j.(status := Failed, lease := None)
    else j.(status := Queued, lease := None, nextRunAt := now + 60)
  }

  /** Recovery may be run for any jobs whose lease has run out, each once. */
  lemma RecoversIff(s: Sys, ids: seq<Id>)
    ensures Enabled(s, Recover(ids))
            <==> && (forall i | i in ids :: i in s.q.jobs && s.q.jobs[i].status == Running && s.q.jobs[i].lease.Some?
                                            && s.q.jobs[i].lease.value.expires <= s.now)
                 && forall a, b | 0 <= a < b < |ids| :: ids[a] != ids[b]
  {
  }

  /** It touches those jobs and their open executions only. */
  lemma RecoveryWrites(s: Sys, ids: seq<Id>)
    requires Enabled(s, Recover(ids))
    ensures var q' := Next(s, Recover(ids)).q;
            && q'.jobs == (map i | i in s.q.jobs :: if i in ids then Recovered(s.q.jobs[i], s.now) else s.q.jobs[i])
            && q'.execs == (map e | e in s.q.execs ::
                              if s.q.execs[e].job in ids && s.q.execs[e].status == ExecRunning
                              then s.q.execs[e].(status := ExecFailed, error := Some(LeaseExpired)) else s.q.execs[e])
            && q'.runs == s.q.runs && q'.challenges == s.q.challenges
            && Next(s, Recover(ids)).workers == s.workers
  {
    RecoveryIsOneUpdate(s.q, s.now, RetryDelay(1), ids);
    assert forall i :: i in Elements(ids) <==> i in ids;
  }

  // ---------- manual validation ----------

  /** Presenting records opens the challenge of the job, or opens it again under its first time. */
  lemma PresentWrites(s: Sys, w: Id)
    requires Enabled(s, Present(w))
    ensures var c, q' := s.workers[w], Next(s, Present(w)).q;
            && q'.jobs == s.q.jobs && q'.execs == s.q.execs && q'.runs == s.q.runs
            && q'.challenges == s.q.challenges[c.job :=
                 if c.job in s.q.challenges then s.q.challenges[c.job].(status := ChallengeWaiting)
                 else Challenge(c.certificate.value, ChallengeWaiting, s.now)]
  {
  }

  /** An approval goes to a challenge of the certificate that waits, and that no other waiting one of it
      is younger than. */
  lemma ConfirmsIff(s: Sys, certificate: Id, job: Id)
    ensures Enabled(s, Confirm(certificate, job))
            <==> && job in s.q.challenges && s.q.challenges[job].certificate == certificate
                 && s.q.challenges[job].status == ChallengeWaiting
                 && forall k | k in s.q.challenges && s.q.challenges[k].certificate == certificate
                               && s.q.challenges[k].status == ChallengeWaiting ::
                      s.q.challenges[k].createdAt <= s.q.challenges[job].createdAt
  {
  }

  /** It marks the challenge, and a parked job is due again at once. */
  lemma ConfirmWrites(s: Sys, certificate: Id, job: Id)
    requires Enabled(s, Confirm(certificate, job)) && job in s.q.jobs
    ensures var q' := Next(s, Confirm(certificate, job)).q;
            && q'.challenges == s.q.challenges[job := s.q.challenges[job].(status := ChallengeApproved)]
            && q'.jobs == (if s.q.jobs[job].status == WaitingUser
                           then s.q.jobs[job := s.q.jobs[job].(status := Queued, nextRunAt := s.now)] else s.q.jobs)
            && q'.execs == s.q.execs && q'.runs == s.q.runs
            && (s.q.jobs[job].status == WaitingUser && !s.q.jobs[job].cancelRequested ==> Waiting(q'.jobs[job], s.now))
  {
  }

  // ---------- cancellation ----------

  /** Changing or deleting a task withdraws its queued jobs and closes its queued runs, now. */
  lemma CancelWrites(s: Sys, task: Id, i: Id, r: Id)
    requires i in s.q.jobs && r in s.q.runs
    ensures var q', j, run := Next(s, Cancel(task)).q, s.q.jobs[i], s.q.runs[r];
            && q'.jobs.Keys == s.q.jobs.Keys && q'.runs.Keys == s.q.runs.Keys
            && q'.jobs[i] == (if j.task == Some(task) && j.status == Queued
                              then j.(status := Cancelled, cancelRequested := true) else j)
            && q'.runs[r] == (if run.task == task && run.status == RunQueued
                              then run.(status := RunCancelled, finished := Some(s.now)) else run)
            && q'.execs == s.q.execs && q'.challenges == s.q.challenges
  {
  }
}
