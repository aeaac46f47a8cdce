/** The transactions of the durable job engine, each as one atomic function of the queue tables. */
module Engine {
  import opened Rows

  // ---------- claiming ----------

  predicate Claimable(j: Job, now: Time) {
    j.status == Queued && j.nextRunAt <= now && !j.cancelRequested
  }

  /** ORDER BY next_run_at, created_at. */
  predicate NotAfter(a: Job, b: Job) {
    a.nextRunAt < b.nextRunAt || (a.nextRunAt == b.nextRunAt && a.createdAt <= b.createdAt)
  }

  /** `id` is a row the claim query may return; ties are broken arbitrarily. */
  predicate IsNext(jobs: map<Id, Job>, now: Time, id: Id) {
    && id in jobs && Claimable(jobs[id], now)
    && forall k | k in jobs && Claimable(jobs[k], now) :: NotAfter(jobs[id], jobs[k])
  }

  function StartRun(runs: map<Id, Run>, run: Option<Id>): map<Id, Run> {
    if run.Some? && run.value in runs && runs[run.value].status == RunQueued
    then runs[run.value := runs[run.value].(status := RunRunning)]
    else runs
  }

  function ClaimedRow(j: Job, now: Time, worker: Id, lease: Time): Job {
    j.(status := Running, attempt := j.attempt + 1, lease := Some(Lease(worker, now + lease)))
  }

  function ClaimJob(q: Queue, now: Time, worker: Id, lease: Time, id: Id): Queue
    requires id in q.jobs
  {
    var row := ClaimedRow(q.jobs[id], now, worker, lease);
    q.(jobs := q.jobs[id := row],
       execs := q.execs[q.nextId := Execution(id, ExecRunning, row.attempt, row.maxAttempts, None)],
       runs := StartRun(q.runs, row.run),
       nextId := q.nextId + 1)
  }

  function ClaimOf(j: Job, id: Id, exec: Id, deadline: Time): Claim {
    Claim(id, exec, j.kind, j.attempt, j.maxAttempts, j.certificate, j.target, j.task, j.run, deadline)
  }

  // ---------- batch verdict ----------

  function Children(jobs: map<Id, Job>, run: Id): set<Id> {
    set i | i in jobs && jobs[i].run == Some(run)
  }

  function ChildrenIn(jobs: map<Id, Job>, run: Id, statuses: set<JobStatus>): set<Id> {
    set i | i in Children(jobs, run) && jobs[i].status in statuses
  }

  /** The switch of refreshAutomationRun: the derived status, and whether it is final. */
  function Verdict(total: nat, succeeded: nat, failed: nat, active: nat, waiting: nat): (RunStatus, bool) {
    if waiting > 0 then (RunWaiting, false)
    else if active > 0 then (RunRunning, false)
    else if failed > 0 && succeeded > 0 then (RunPartial, true)
    else if failed > 0 then (RunFailed, true)
    else if total > 0 && succeeded == total then (RunSucceeded, true)
    else (RunQueued, false)
  }

  function VerdictOf(jobs: map<Id, Job>, run: Id): (RunStatus, bool) {
    Verdict(|Children(jobs, run)|,
            |ChildrenIn(jobs, run, {Succeeded})|,
            |ChildrenIn(jobs, run, {Failed})|,
            |ChildrenIn(jobs, run, {Queued, Running})|,
            |ChildrenIn(jobs, run, {WaitingUser})|)
  }

  function RefreshedRun(jobs: map<Id, Job>, id: Id, run: Run, now: Time): Run {
    var verdict := VerdictOf(jobs, id);
    run.(status := verdict.0,
         total := |Children(jobs, id)|,
         succeeded := |ChildrenIn(jobs, id, {Succeeded})|,
         failed := |ChildrenIn(jobs, id, {Failed})|,
         finished := if verdict.1 then Some(now) else None)
  }

  /** A missing run aborts the enclosing transaction, see RunKnown. */
  predicate RunKnown(q: Queue, run: Option<Id>) {
    run.None? || run.value in q.runs
  }

  function Refresh(q: Queue, run: Option<Id>, now: Time): Queue
    requires RunKnown(q, run)
  {
    match run
    case None => q
    case Some(r) => q.(runs := q.runs[r := RefreshedRun(q.jobs, r, q.runs[r], now)])
  }

  // ---------- finishing ----------

  /** The guard of every finish: it compares the owner, not the attempt. */
  predicate HoldsLease(jobs: map<Id, Job>, id: Id, worker: Id) {
    && id in jobs && jobs[id].status == Running
    && jobs[id].lease.Some? && jobs[id].lease.value.owner == worker
  }

  function CloseExec(execs: map<Id, Execution>, exec: Id, status: ExecStatus, error: Option<ErrorCode>): map<Id, Execution> {
    if exec in execs && execs[exec].status == ExecRunning
    then execs[exec := execs[exec].(status := status, error := error)]
    else execs
  }

  /** None is the rolled-back transaction, reported as an error to the worker. */
  function CompleteJob(q: Queue, now: Time, c: Claim, worker: Id): Option<Queue> {
    if !HoldsLease(q.jobs, c.job, worker) || !RunKnown(q, c.run) then None
    else
      Some(Refresh(
             q.(jobs := q.jobs[c.job := q.jobs[c.job].(status := Succeeded, lease := None)],
                execs := CloseExec(q.execs, c.exec, ExecSucceeded, None)),
             c.run, now))
  }

  function FailedRow(j: Job, now: Time, retry: Option<Time>): Job {
    match retry
    case None => j.(status := Failed, lease := None)
    case Some(delay) => j.(status := Queued, lease := None, nextRunAt := now + delay)
  }

  function FailJob(q: Queue, now: Time, c: Claim, worker: Id, code: ErrorCode, retry: Option<Time>): Option<Queue> {
    if !HoldsLease(q.jobs, c.job, worker) || !RunKnown(q, c.run) then None
    else
      Some(Refresh(
             q.(jobs := q.jobs[c.job := FailedRow(q.jobs[c.job], now, retry)],
                execs := CloseExec(q.execs, c.exec, ExecFailed, Some(code))),
             c.run, now))
  }

  /** MarkJobWaitingUser never checks how many job rows it changed: the execution update and
      the run refresh happen even when the lease is lost. */
  function MarkWaiting(q: Queue, now: Time, c: Claim, worker: Id, code: ErrorCode): Option<Queue> {
    if !RunKnown(q, c.run) then None
    else
      var jobs := if HoldsLease(q.jobs, c.job, worker)
                  then q.jobs[c.job := q.jobs[c.job].(status := WaitingUser, lease := None)]
                  else q.jobs;
      Some(Refresh(q.(jobs := jobs, execs := CloseExec(q.execs, c.exec, ExecWaiting, Some(code))), c.run, now))
  }

  // ---------- lease recovery ----------

  predicate Expired(j: Job, now: Time) {
    j.status == Running && j.lease.Some? && j.lease.value.expires <= now
  }

  function RecoveredRow(j: Job, now: Time, delay: Time): Job {
    if j.attempt >= j.maxAttempts then j.(status := Failed, lease := None)
    else j.(status := Queued, lease := None, nextRunAt := now + delay)
  }

  /** UPDATE workflow_executions ... WHERE job_id = id AND status = 'running'. */
  function InterruptExecs(execs: map<Id, Execution>, id: Id): map<Id, Execution> {
    map e | e in execs ::
      if execs[e].job == id && execs[e].status == ExecRunning
      then execs[e].(status := ExecFailed, error := Some(LeaseExpired)) else execs[e]
  }

  /** One iteration of the recovery loop. The run is not refreshed. */
  function RecoverOne(q: Queue, now: Time, delay: Time, id: Id): Queue
    requires id in q.jobs
  {
    q.(jobs := q.jobs[id := RecoveredRow(q.jobs[id], now, delay)], execs := InterruptExecs(q.execs, id))
  }

  function RecoverJobs(q: Queue, now: Time, delay: Time, ids: seq<Id>): (r: Queue)
    requires forall i | i in ids :: i in q.jobs
    ensures r.jobs.Keys == q.jobs.Keys
    decreases |ids|
  {
    if ids == [] then q else RecoverJobs(RecoverOne(q, now, delay, ids[0]), now, delay, ids[1..])
  }

  /** `ids` lists expired rows, each once, in any order. Rows another transaction has locked are
      skipped, so the list need not be complete. */
  ghost predicate ListsExpired(jobs: map<Id, Job>, now: Time, ids: seq<Id>) {
    && (forall i | i in ids :: i in jobs && Expired(jobs[i], now))
    && (forall a, b | 0 <= a < b < |ids| :: ids[a] != ids[b])
  }

  /** Nothing was locked: the list is complete. */
  ghost predicate ListsAllExpired(jobs: map<Id, Job>, now: Time, ids: seq<Id>) {
    ListsExpired(jobs, now, ids) && forall i | i in jobs && Expired(jobs[i], now) :: i in ids
  }

  /** Recovery as a single update of every listed row. */
  function RecoverSet(q: Queue, now: Time, delay: Time, ids: set<Id>): Queue {
    q.(jobs := map i | i in q.jobs :: if i in ids then RecoveredRow(q.jobs[i], now, delay) else q.jobs[i],
       execs := map e | e in q.execs ::
         if q.execs[e].job in ids && q.execs[e].status == ExecRunning
         then q.execs[e].(status := ExecFailed, error := Some(LeaseExpired)) else q.execs[e])
  }

  function Elements(ids: seq<Id>): set<Id> {
    set i | i in ids
  }

  lemma RecoverSetStep(q: Queue, now: Time, delay: Time, id: Id, ids: set<Id>)
    requires id in q.jobs && id !in ids
    ensures RecoverSet(RecoverOne(q, now, delay, id), now, delay, ids) == RecoverSet(q, now, delay, {id} + ids)
  {
    var a, b := RecoverSet(RecoverOne(q, now, delay, id), now, delay, ids), RecoverSet(q, now, delay, {id} + ids);
    assert a.jobs == b.jobs;
    assert a.execs == b.execs;
  }

  /** The recovery loop does the same whatever order the query lists the rows in. */
  lemma {:induction false} RecoveryIsOneUpdate(q: Queue, now: Time, delay: Time, ids: seq<Id>)
    requires forall i | i in ids :: i in q.jobs
    requires forall a, b | 0 <= a < b < |ids| :: ids[a] != ids[b]
    ensures RecoverJobs(q, now, delay, ids) == RecoverSet(q, now, delay, Elements(ids))
    decreases |ids|
  {
    if ids == [] {
      var r := RecoverSet(q, now, delay, {});
      assert r.jobs == q.jobs && r.execs == q.execs && Elements(ids) == {};
    } else {
      RecoveryIsOneUpdate(RecoverOne(q, now, delay, ids[0]), now, delay, ids[1..]);
      assert Elements(ids) == {ids[0]} + Elements(ids[1..]);
      RecoverSetStep(q, now, delay, ids[0], Elements(ids[1..]));
    }
  }

  // ---------- manual validation ----------

  function SaveChallenge(q: Queue, now: Time, job: Id, certificate: Id): Queue {
    var created := if job in q.challenges then q.challenges[job].createdAt else now;
    var owner := if job in q.challenges then q.challenges[job].certificate else certificate;
    q.(challenges := q.challenges[job := Challenge(owner, ChallengeWaiting, created)])
  }

  /** The challenge ApproveManualChallenge selects for a certificate. */
  predicate IsLatestWaiting(challenges: map<Id, Challenge>, certificate: Id, job: Id) {
    && job in challenges && challenges[job].certificate == certificate && challenges[job].status == ChallengeWaiting
    && forall k | k in challenges && challenges[k].certificate == certificate && challenges[k].status == ChallengeWaiting ::
         challenges[k].createdAt <= challenges[job].createdAt
  }

  function Approve(q: Queue, now: Time, job: Id): Queue
    requires job in q.challenges
  {
    q.(challenges := q.challenges[job := q.challenges[job].(status := ChallengeApproved)],
       jobs := if job in q.jobs && q.jobs[job].status == WaitingUser
               then q.jobs[job := q.jobs[job].(status := Queued, nextRunAt := now)]
               else q.jobs)
  }

  // ---------- cancellation ----------

  /** The job and run part of UpdateAutomationTask and DeleteAutomationTask. */
  function CancelTask(q: Queue, now: Time, task: Id): Queue {
    q.(jobs := map i | i in q.jobs ::
                 if q.jobs[i].task == Some(task) && q.jobs[i].status == Queued
                 then q.jobs[i].(status := Cancelled, cancelRequested := true) else q.jobs[i],
       runs := map r | r in q.runs ::
                 if q.runs[r].task == task && q.runs[r].status == RunQueued
                 then q.runs[r].(status := RunCancelled, finished := Some(now)) else q.runs[r])
  }

  // ---------- enqueueing ----------

  /** A batch of rows inserted by one transaction. */
  datatype Batch = Batch(jobs: map<Id, Job>, runs: map<Id, Run>, nextId: Id)

  function Enqueue(q: Queue, b: Batch): Queue {
    q.(jobs := q.jobs + b.jobs, runs := q.runs + b.runs, nextId := b.nextId)
  }

  predicate NewRow(j: Job, now: Time) {
    && j.status == Queued && j.attempt == 0 && j.maxAttempts == 5 && j.lease == None && !j.cancelRequested
    && j.nextRunAt == now && j.createdAt == now
  }

  predicate NewRun(r: Run) {
    r.status == RunQueued && r.succeeded == 0 && r.failed == 0 && r.finished == None
  }

  /** What every insert path of the store guarantees about the rows it adds. */
  ghost predicate GoodBatch(q: Queue, now: Time, b: Batch) {
    && q.nextId <= b.nextId
    && (forall i | i in b.jobs :: q.nextId <= i < b.nextId && NewRow(b.jobs[i], now))
    && (forall r | r in b.runs :: q.nextId <= r < b.nextId && NewRun(b.runs[r])
                                  && b.runs[r].total == |Children(b.jobs, r)| && b.runs[r].total > 0)
    && (forall i | i in b.jobs && b.jobs[i].run.Some? ::
          b.jobs[i].run.value in b.runs && b.jobs[i].task == Some(b.runs[b.jobs[i].run.value].task))
  }
}
