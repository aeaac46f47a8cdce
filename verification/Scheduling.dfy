/** The other insert paths of the store: operator requests, manual runs and the due scan. */
module Scheduling {
  import opened Rows
  import opened Catalog
  import opened Certificates
  import opened Engine
  import opened Fanout

  // ---------- live work ----------

  /** The issuances QueueCertificateIssue counts as in progress. */
  function LiveIssuances(jobs: map<Id, Job>, certificate: Id): set<Id> {
    set i | i in jobs && Issuance(jobs[i].kind) && jobs[i].certificate == Some(certificate)
            && jobs[i].status in {Queued, Running, WaitingUser}
  }

  /** The issuances the due scan looks at: a job waiting for the user is not among them. */
  function ActiveIssuances(jobs: map<Id, Job>, certificate: Id): set<Id> {
    set i | i in LiveIssuances(jobs, certificate) && jobs[i].status in {Queued, Running}
  }

  function LiveRuns(runs: map<Id, Run>, task: Id): set<Id> {
    set r | r in runs && runs[r].task == task && runs[r].status in {RunQueued, RunRunning, RunWaiting}
  }

  // ---------- operator requests ----------

  function IssueJob(certificate: Id, key: Key, now: Time): Job {
    NewJob(Issue, CertificateScope(certificate), key, certificate, None, None, None, None, now)
  }

  datatype IssueOutcome = NoCertificate | IssueInProgress | IssueQueued(job: Id, q: Queue, certs: map<Id, Cert>)

  /** QueueCertificateIssue. */
  function QueueIssue(q: Queue, certs: map<Id, Cert>, now: Time, certificate: Id): IssueOutcome {
    if certificate !in certs || certs[certificate].deleted then NoCertificate
    else if LiveIssuances(q.jobs, certificate) != {} then IssueInProgress
    else
      var job := q.nextId;
      IssueQueued(job,
                  q.(jobs := q.jobs[job := IssueJob(certificate, Once(job), now)], nextId := job + 1),
                  certs[certificate := certs[certificate].(status := Pending)])
  }

  datatype RunOutcome = NoTask | RunInProgress | WaitingForCertificate | NoTargets | RunStarted(run: Id, q: Queue)

  /** What the caller of a manual run is told. */
  datatype RunReply = SaysNoTask | SaysInProgress | SaysWaitingForCertificate | SaysNoTargets | SaysStarted(run: Id)

  function ReplyOf(o: RunOutcome): RunReply {
    match o
    case NoTask => SaysNoTask
    case RunInProgress => SaysInProgress
    case WaitingForCertificate => SaysWaitingForCertificate
    case NoTargets => SaysNoTargets
    case RunStarted(run, _) => SaysStarted(run)
  }

  function ManualJob(t: Id, task: Task, target: Option<Id>, id: Id, run: Id, now: Time): Job {
    var kind := match task.action case RenewCertificate => Renew case UploadSsl => Upload case DeployAlb => Deploy;
    NewJob(kind, TaskScope(t), Once(id), task.certificate, target,
           if task.action == UploadSsl then task.credential else None, Some(t), Some(run), now)
  }

  function Range(lo: nat, n: nat): (r: set<nat>)
    ensures forall i: nat :: i in r <==> lo <= i < lo + n
    ensures |r| == n
  {
    if n == 0 then {} else Range(lo, n - 1) + {lo + n - 1}
  }

  /** One job per slot, each under an id of its own. */
  function ManualJobs(q: Queue, t: Id, task: Task, slots: seq<Option<Id>>, run: Id, now: Time): Queue {
    q.(jobs := q.jobs + map i | i in Range(q.nextId, |slots|) :: ManualJob(t, task, slots[i - q.nextId], i, run, now),
       nextId := q.nextId + |slots|)
  }

  function Slots(task: Task, targets: seq<Id>): seq<Option<Id>> {
    if task.action == DeployAlb then seq(|targets|, k requires 0 <= k < |targets| => Some(targets[k])) else [None]
  }

  function OpenManualRun(q: Queue, t: Id, task: Task, version: Option<Id>, total: nat): Queue {
    q.(runs := q.runs[q.nextId := Run(t, task.certificate, version, RunQueued, total, 0, 0, None)], nextId := q.nextId + 1)
  }

  function ManualRun(q: Queue, t: Id, task: Task, version: Option<Id>, slots: seq<Option<Id>>, now: Time): Queue {
    ManualJobs(OpenManualRun(q, t, task, version, |slots|), t, task, slots, q.nextId, now)
  }

  /** QueueAutomationRun; `targets` are the task's enabled links by position. */
  function QueueRun(q: Queue, tasks: map<Id, Task>, certs: map<Id, Cert>, targets: seq<Id>, now: Time, t: Id): RunOutcome {
    if t !in tasks || !tasks[t].enabled || tasks[t].deleted then NoTask
    else if LiveRuns(q.runs, t) != {} then RunInProgress
    else
      var task := tasks[t];
      var c := task.certificate;
      if task.action != RenewCertificate && (c !in certs || certs[c].deleted || certs[c].current.None?)
      then WaitingForCertificate
      else if task.action == DeployAlb && targets == [] then NoTargets
      else
        var version := if task.action == RenewCertificate then None else certs[c].current;
        RunStarted(q.nextId, ManualRun(q, t, task, version, Slots(task, targets), now))
  }

  /** Row `i` of the table with one job per slot added. */
  lemma ManualJobAt(q: Queue, t: Id, task: Task, slots: seq<Option<Id>>, run: Id, now: Time, i: Id)
    ensures var jobs', added := ManualJobs(q, t, task, slots, run, now).jobs, q.nextId <= i < q.nextId + |slots|;
            && (i in jobs' <==> i in q.jobs || added)
            && (added ==> jobs'[i] == ManualJob(t, task, slots[i - q.nextId], i, run, now))
            && (i in q.jobs && !added ==> jobs'[i] == q.jobs[i])
  {
    assert i in Range(q.nextId, |slots|) <==> q.nextId <= i < q.nextId + |slots|;
  }

  /** A manual run with a single job. */
  lemma OneSlotRun(q: Queue, t: Id, task: Task, version: Option<Id>, slot: Option<Id>, now: Time)
    ensures ManualRun(q, t, task, version, [slot], now)
            == q.(jobs := q.jobs[q.nextId + 1 := ManualJob(t, task, slot, q.nextId + 1, q.nextId, now)],
                  runs := q.runs[q.nextId := Run(t, task.certificate, version, RunQueued, 1, 0, 0, None)],
                  nextId := q.nextId + 2)
  {
    var started, q' := OpenManualRun(q, t, task, version, 1), ManualRun(q, t, task, version, [slot], now);
    var jobs := q.jobs[q.nextId + 1 := ManualJob(t, task, slot, q.nextId + 1, q.nextId, now)];
    forall i
      ensures i in jobs <==> i in q'.jobs
      ensures i in jobs ==> jobs[i] == q'.jobs[i]
    {
      ManualJobAt(started, t, task, [slot], q.nextId, now, i);
    }
    assert q'.jobs == jobs;
  }

  lemma NoChildYet(q: Queue, i: Id)
    requires Sound(q) && i in q.jobs
    ensures i < q.nextId && q.jobs[i].run != Some(q.nextId)
  {
  }

  lemma ManualRunChildren(q: Queue, t: Id, task: Task, version: Option<Id>, slots: seq<Option<Id>>, now: Time)
    requires Sound(q)
    ensures Children(ManualRun(q, t, task, version, slots, now).jobs, q.nextId) == Range(q.nextId + 1, |slots|)
  {
    var started := OpenManualRun(q, t, task, version, |slots|);
    var jobs' := ManualRun(q, t, task, version, slots, now).jobs;
    forall i: Id
      ensures i in Children(jobs', q.nextId) <==> i in Range(q.nextId + 1, |slots|)
    {
      ManualJobAt(started, t, task, slots, q.nextId, now, i);
      if i in q.jobs {
        NoChildYet(q, i);
      }
    }
  }

  lemma ManualJobOk(q: Queue, t: Id, task: Task, version: Option<Id>, slots: seq<Option<Id>>, now: Time, i: Id)
    requires Sound(q)
    requires var q' := ManualRun(q, t, task, version, slots, now); i in q'.jobs && i !in q.jobs
    ensures NewJobOk(q, ManualRun(q, t, task, version, slots, now), now, i)
  {
    assert ManualRun(q, t, task, version, slots, now).jobs[i] == ManualJob(t, task, slots[i - q.nextId - 1], i, q.nextId, now);
  }

  lemma ManualRunRows(q: Queue, t: Id, task: Task, version: Option<Id>, slots: seq<Option<Id>>, now: Time)
    requires Sound(q)
    ensures var q' := ManualRun(q, t, task, version, slots, now);
            && (forall i | i in q.jobs :: i in q'.jobs && q'.jobs[i] == q.jobs[i])
            && (forall i | i in q'.jobs :: i < q'.nextId)
  {
  }

  /** A manual run is an insert step with one job per slot. */
  lemma ManualRunGrows(q: Queue, t: Id, task: Task, version: Option<Id>, slots: seq<Option<Id>>, now: Time)
    requires Sound(q) && slots != []
    ensures Grows(q, ManualRun(q, t, task, version, slots, now), now) && Sound(ManualRun(q, t, task, version, slots, now))
  {
    var q' := ManualRun(q, t, task, version, slots, now);
    ManualRunRows(q, t, task, version, slots, now);
    ManualRunChildren(q, t, task, version, slots, now);
    forall i | i in q'.jobs && i !in q.jobs {
      ManualJobOk(q, t, task, version, slots, now, i);
    }
    forall r | r in q'.runs && r !in q.runs
      ensures NewRunOk(q, q', r)
    {
    }
    GrownIsSound(q, q', now);
  }

  lemma GrownIsSound(q: Queue, q': Queue, now: Time)
    requires Sound(q) && Grows(q, q', now)
    ensures Sound(q')
  {
    forall i | i in q'.jobs && i !in q.jobs
      ensures i < q'.nextId && (q'.jobs[i].run.Some? ==> q'.jobs[i].run.value in q'.runs)
    {
      assert NewJobOk(q, q', now, i);
    }
    forall r | r in q'.runs && r !in q.runs
      ensures r < q'.nextId
    {
      assert NewRunOk(q, q', r);
    }
  }

  lemma ManualRunIsAlone(q: Queue, tasks: map<Id, Task>, certs: map<Id, Cert>, targets: seq<Id>, now: Time, t: Id)
    ensures var o := QueueRun(q, tasks, certs, targets, now, t);
            && (o.RunStarted? ==> LiveRuns(o.q.runs, t) == {o.run})
            && (LiveRuns(q.runs, t) != {} ==> !o.RunStarted?)
  {
    var o := QueueRun(q, tasks, certs, targets, now, t);
    if o.RunStarted? {
      forall r | r in LiveRuns(o.q.runs, t)
        ensures r == o.run
      {
        assert r != o.run ==> r in LiveRuns(q.runs, t);
      }
    }
  }

  // ---------- the due scan ----------

  /** `certs` and `versions` do not change during a scan. */
  datatype Sched = Sched(q: Queue, tasks: map<Id, Task>, certs: map<Id, Cert>, versions: map<Id, Version>)

  /** The WHERE clause of the scan. */
  predicate Eligible(s: Sched, now: Time, t: Id) {
    && t in s.tasks && s.tasks[t].enabled && !s.tasks[t].deleted && s.tasks[t].action == RenewCertificate
    && s.tasks[t].nextRunAt <= now
    && s.tasks[t].certificate in s.certs
    && (var c := s.certs[s.tasks[t].certificate];
        && !c.deleted && c.current.Some? && c.current.value in s.versions
        && s.versions[c.current.value].notAfter <= now + c.renewBefore)
    && ActiveIssuances(s.q.jobs, s.tasks[t].certificate) == {}
  }

  function EligibleTasks(s: Sched, now: Time): set<Id> {
    set t | t in s.tasks && Eligible(s, now, t)
  }

  /** ORDER BY a.next_run_at LIMIT 1. */
  predicate Earliest(s: Sched, now: Time, t: Id) {
    t in EligibleTasks(s, now) && forall u | u in EligibleTasks(s, now) :: s.tasks[t].nextRunAt <= s.tasks[u].nextRunAt
  }

  function RenewalJob(s: Sched, now: Time, t: Id, run: Id): Job
    requires t in s.tasks
  {
    NewJob(Renew, SchedulerScope(t), Once(run + 1), s.tasks[t].certificate, None, None, Some(t), Some(run), now)
  }

  /** The renewal insert of the scan names six placeholders and is given seven arguments. The driver
      answers a call whose counts differ with an error, in every execution mode. */
  const RENEWAL_PLACEHOLDERS: nat := 6
  const RENEWAL_ARGUMENTS: nat := 7

  datatype ScanReply = ScanFailed | ScanQueued(count: nat)

  /** One iteration: a run, its single renewal job, and the task's next due time. */
  function ScanOne(s: Sched, now: Time, t: Id): Sched
    requires Eligible(s, now, t)
  {
    var run, task := s.q.nextId, s.tasks[t];
    s.(q := s.q.(runs := s.q.runs[run := Run(t, task.certificate, s.certs[task.certificate].current, RunQueued, 1, 0, 0, None)],
                 jobs := s.q.jobs[run + 1 := RenewalJob(s, now, t, run)],
                 nextId := run + 2),
       tasks := s.tasks[t := task.(nextRunAt := now + task.interval)])
  }

  /** The loop drained the queue of due tasks by serving `log` in order. */
  ghost predicate IsScan(s: Sched, now: Time, log: seq<Id>)
    decreases |log|
  {
    if log == [] then EligibleTasks(s, now) == {}
    else Earliest(s, now, log[0]) && IsScan(ScanOne(s, now, log[0]), now, log[1..])
  }

  ghost function ScanAll(s: Sched, now: Time, log: seq<Id>): Sched
    requires IsScan(s, now, log)
    decreases |log|
  {
    if log == [] then s else ScanAll(ScanOne(s, now, log[0]), now, log[1..])
  }

  /** Serving a task retires exactly the tasks of its certificate. */
  lemma ScanRetires(s: Sched, now: Time, t: Id, u: Id)
    requires Fresh(s.q) && Eligible(s, now, t)
    ensures Eligible(ScanOne(s, now, t), now, u) <==> Eligible(s, now, u) && s.tasks[u].certificate != s.tasks[t].certificate
  {
    var s', c := ScanOne(s, now, t), s.tasks[t].certificate;
    var job := s.q.nextId + 1;
    assert job in ActiveIssuances(s'.q.jobs, c);
    if u in s.tasks && s.tasks[u].certificate != c {
      var d := s.tasks[u].certificate;
      assert s'.tasks[u] == s.tasks[u];
      assert forall i :: i in ActiveIssuances(s'.q.jobs, d) <==> i in ActiveIssuances(s.q.jobs, d);
      assert ActiveIssuances(s'.q.jobs, d) == ActiveIssuances(s.q.jobs, d);
    }
  }

  lemma ScanGrows(s: Sched, now: Time, t: Id)
    requires Sound(s.q) && Eligible(s, now, t)
    ensures Grows(s.q, ScanOne(s, now, t).q, now) && Sound(ScanOne(s, now, t).q)
  {
    var q', run := ScanOne(s, now, t).q, s.q.nextId;
    assert Children(q'.jobs, run) == {run + 1};
  }
}
