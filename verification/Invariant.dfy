/** The joint invariant of tables and workers, and its preservation by every step. */
module Invariant {
  import opened Rows
  import opened Policy
  import opened System
  import opened Engine

  // ---------- the parts ----------

  predicate RowShape(j: Job) {
    && (j.status == Running <==> j.lease.Some?)
    && (j.cancelRequested <==> j.status == Cancelled)
    && (j.attempt == 0 ==> j.status in {Queued, Cancelled})
    && j.maxAttempts > 0
  }

  ghost predicate RowsOk(jobs: map<Id, Job>, execs: map<Id, Execution>, runs: map<Id, Run>, nextId: Id) {
    && (forall i | i in jobs :: i < nextId && RowShape(jobs[i]))
    && (forall e | e in execs :: e < nextId)
    && (forall r | r in runs :: r < nextId)
    && (forall i | i in jobs && jobs[i].run.Some? ::
          jobs[i].run.value in runs && jobs[i].task == Some(runs[jobs[i].run.value].task))
  }

  function ExecsOf(execs: map<Id, Execution>, job: Id): set<Id> {
    set e | e in execs && execs[e].job == job
  }

  /** How the newest execution mirrors its job. */
  predicate Mirrors(job: JobStatus, exec: ExecStatus) {
    (job == Running <==> exec == ExecRunning) && (job == Succeeded <==> exec == ExecSucceeded)
  }

  /** The executions of job `i`: as many as attempts; all but the newest belong to earlier
      attempts and are closed; the newest mirrors the job. */
  ghost predicate JobLedger(job: Job, execs: map<Id, Execution>, latest: map<Id, Id>, i: Id) {
    && |ExecsOf(execs, i)| == job.attempt
    && (job.attempt > 0 ==>
          && i in latest && latest[i] in execs && execs[latest[i]].job == i
          && execs[latest[i]].attempt == job.attempt && Mirrors(job.status, execs[latest[i]].status))
    && (forall e | e in execs && execs[e].job == i :: OldExec(execs[e], job) || (i in latest && e == latest[i]))
  }

  predicate OldExec(x: Execution, job: Job) {
    1 <= x.attempt < job.attempt && x.status !in {ExecRunning, ExecSucceeded}
  }

  ghost predicate Ledger(jobs: map<Id, Job>, execs: map<Id, Execution>, latest: map<Id, Id>) {
    && (forall i | i in jobs :: JobLedger(jobs[i], execs, latest, i))
    && (forall e | e in execs :: execs[e].job in jobs)
  }

  /** At most one execution per job and attempt. */
  ghost predicate OnePerAttempt(execs: map<Id, Execution>) {
    forall e, f | e in execs && f in execs && execs[e].job == execs[f].job && execs[e].attempt == execs[f].attempt ::
      e == f
  }

  /** What one worker's claim knows about its row. */
  ghost predicate ClaimRow(j: Job, now: Time, w: Id, c: Claim) {
    && c.attempt <= j.attempt
    && c.kind == j.kind && c.certificate == j.certificate
    && c.run == j.run && c.task == j.task && c.maxAttempts == j.maxAttempts
    && (j.status == Running && j.attempt == c.attempt ==> j.lease == Some(Lease(w, c.deadline)))
    && (j.status == Running && j.lease.Some? && j.lease.value.owner == w ==> j.attempt == c.attempt)
    && (now < c.deadline ==> j.status == Running && j.attempt == c.attempt)
  }

  ghost predicate ClaimOk(jobs: map<Id, Job>, execs: map<Id, Execution>, now: Time, w: Id, c: Claim) {
    && c.job in jobs && c.exec in execs
    && execs[c.exec].job == c.job && execs[c.exec].attempt == c.attempt
    && ClaimRow(jobs[c.job], now, w, c)
  }

  ghost predicate Claims(jobs: map<Id, Job>, execs: map<Id, Execution>, now: Time, workers: map<Id, Claim>) {
    forall w | w in workers :: ClaimOk(jobs, execs, now, w, workers[w])
  }

  ghost predicate RunOk(jobs: map<Id, Job>, r: Id, run: Run) {
    && Children(jobs, r) != {}
    && run.total == |Children(jobs, r)|
    && run.succeeded == |ChildrenIn(jobs, r, {Succeeded})|
    && (forall i | i in Children(jobs, r) :: Allowed(run.status, jobs[i].status))
    && (run.status in {RunPartial, RunFailed} ==> ChildrenIn(jobs, r, {Failed}) != {})
    && (run.status == RunPartial ==> ChildrenIn(jobs, r, {Succeeded}) != {})
    && (run.finished.Some? <==> Over(run.status))
  }

  predicate Over(status: RunStatus) {
    status in {RunSucceeded, RunPartial, RunFailed, RunCancelled}
  }

  /** The child statuses a run status admits. */
  predicate Allowed(run: RunStatus, child: JobStatus) {
    match run
    case RunQueued => child == Queued || Terminal(child)
    case RunRunning => true
    case RunWaiting => true
    case RunSucceeded => child == Succeeded
    case RunPartial => Terminal(child)
    case RunFailed => Terminal(child) && child != Succeeded
    case RunCancelled => Terminal(child)
  }

  ghost predicate RunsOk(jobs: map<Id, Job>, runs: map<Id, Run>) {
    forall r | r in runs :: RunOk(jobs, r, runs[r])
  }

  ghost predicate QueueInv(q: Queue, now: Time, workers: map<Id, Claim>, latest: map<Id, Id>) {
    && RowsOk(q.jobs, q.execs, q.runs, q.nextId)
    && Ledger(q.jobs, q.execs, latest) && OnePerAttempt(q.execs)
    && Claims(q.jobs, q.execs, now, workers) && RunsOk(q.jobs, q.runs)
  }

  ghost predicate Inv(s: Sys) {
    QueueInv(s.q, s.now, s.workers, s.latest)
  }

  // ---------- counting children ----------

  lemma CardSubset(a: set<Id>, b: set<Id>)
    requires a <= b
    ensures |a| <= |b|
    ensures |a| == |b| ==> a == b
  {
    var c := b - a;
    assert b == a + c;
    assert |b| == |a| + |c|;
  }

  /** A run keeps its row facts when no child enters or leaves and the counted sets stand. */
  lemma RunStable(jobs: map<Id, Job>, jobs': map<Id, Job>, r: Id, run: Run, run': Run)
    requires RunOk(jobs, r, run)
    requires Children(jobs', r) == Children(jobs, r)
    requires forall i | i in Children(jobs, r) ::
               && (jobs[i].status == Succeeded <==> jobs'[i].status == Succeeded)
               && (jobs[i].status == Failed ==> jobs'[i].status == Failed)
               && Allowed(run'.status, jobs'[i].status)
    requires run'.total == run.total && run'.succeeded == run.succeeded
    requires run'.status == run.status || run'.status in {RunRunning, RunCancelled}
    requires run'.finished.Some? <==> Over(run'.status)
    ensures RunOk(jobs', r, run')
  {
    assert ChildrenIn(jobs', r, {Succeeded}) == ChildrenIn(jobs, r, {Succeeded});
    assert ChildrenIn(jobs, r, {Failed}) <= ChildrenIn(jobs', r, {Failed});
  }

  lemma RefreshedOk(jobs: map<Id, Job>, r: Id, run: Run, now: Time)
    requires Children(jobs, r) != {}
    ensures RunOk(jobs, r, RefreshedRun(jobs, r, run, now))
  {
    var children, succeeded := Children(jobs, r), ChildrenIn(jobs, r, {Succeeded});
    CardSubset(succeeded, children);
    var run' := RefreshedRun(jobs, r, run, now);
    forall i | i in children
      ensures Allowed(run'.status, jobs[i].status)
    {
      assert jobs[i].status == WaitingUser ==> i in ChildrenIn(jobs, r, {WaitingUser});
      assert jobs[i].status in {Queued, Running} ==> i in ChildrenIn(jobs, r, {Queued, Running});
      assert jobs[i].status == Succeeded ==> i in succeeded;
    }
  }
}
