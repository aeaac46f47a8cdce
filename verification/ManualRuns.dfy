/** What an operator's run of a task queues. */
module ManualRuns {
  import opened Rows
  import opened Catalog
  import opened Engine
  import opened Fanout
  import opened Scheduling

  /** When a run starts: the task is live and enabled and has no live run, a delivery has a version to
      deliver, and a deployment a target to deliver to. */
  lemma StartsIff(q: Queue, tasks: map<Id, Task>, certs: map<Id, Cert>, targets: seq<Id>, now: Time, t: Id)
    ensures QueueRun(q, tasks, certs, targets, now, t).RunStarted?
            <==> && t in tasks && tasks[t].enabled && !tasks[t].deleted
                 && (forall r | r in q.runs && q.runs[r].task == t :: q.runs[r].status !in {RunQueued, RunRunning, RunWaiting})
                 && (tasks[t].action == RenewCertificate
                     || (&& tasks[t].certificate in certs && !certs[tasks[t].certificate].deleted
                         && certs[tasks[t].certificate].current.Some?))
                 && (tasks[t].action == DeployAlb ==> targets != [])
  {
    if LiveRuns(q.runs, t) == {} {
      forall r | r in q.runs && q.runs[r].task == t
        ensures q.runs[r].status !in {RunQueued, RunRunning, RunWaiting}
      {
        assert r !in LiveRuns(q.runs, t);
      }
    } else {
      var r :| r in LiveRuns(q.runs, t);
    }
  }

  /** Some run of the task is queued, running or waiting for the user. */
  ghost predicate HasLiveRun(runs: map<Id, Run>, t: Id) {
    exists r :: r in runs && runs[r].task == t && runs[r].status in {RunQueued, RunRunning, RunWaiting}
  }

  predicate HasVersion(certs: map<Id, Cert>, c: Id) {
    c in certs && !certs[c].deleted && certs[c].current.Some?
  }

  /** What the operator is told otherwise: that there is no such task, then that a run is in progress, then
      that there is no certificate to deliver, then that there is nowhere to deliver it to. */
  lemma RepliesAre(q: Queue, tasks: map<Id, Task>, certs: map<Id, Cert>, targets: seq<Id>, now: Time, t: Id)
    ensures var reply := ReplyOf(QueueRun(q, tasks, certs, targets, now, t));
            if t !in tasks || !tasks[t].enabled || tasks[t].deleted then reply == SaysNoTask
            else if HasLiveRun(q.runs, t) then reply == SaysInProgress
            else if tasks[t].action != RenewCertificate && !HasVersion(certs, tasks[t].certificate)
            then reply == SaysWaitingForCertificate
            else if tasks[t].action == DeployAlb && targets == [] then reply == SaysNoTargets
            else reply == SaysStarted(QueueRun(q, tasks, certs, targets, now, t).run)
  {
    LiveRunsIff(q.runs, t);
    var o := QueueRun(q, tasks, certs, targets, now, t);
    match o
    case RunStarted(run, _) => StartsIff(q, tasks, certs, targets, now, t);
    case _ =>
  }

  lemma LiveRunsIff(runs: map<Id, Run>, t: Id)
    ensures LiveRuns(runs, t) != {} <==> HasLiveRun(runs, t)
  {
    if r :| r in runs && runs[r].task == t && runs[r].status in {RunQueued, RunRunning, RunWaiting} {
      assert r in LiveRuns(runs, t);
    }
    if r :| r in LiveRuns(runs, t) {
      assert HasLiveRun(runs, t);
    }
  }

  /** What every job of a run of `task` carries. */
  predicate CarriesTask(j: Job, t: Id, task: Task, run: Id, now: Time) {
    NewRow(j, now) && j.certificate == Some(task.certificate) && j.task == Some(t) && j.run == Some(run)
  }

  /** Renewals and uploads are one job without a target; a deployment is one job per target, in order;
      only an upload carries a credential. */
  predicate DoesWork(j: Job, task: Task, targets: seq<Id>, n: nat) {
    match task.action
    case RenewCertificate => j.kind == Renew && j.target == None && j.credential == None
    case UploadSsl => j.kind == Upload && j.target == None && j.credential == task.credential
    case DeployAlb => n < |targets| && j.kind == Deploy && j.target == Some(targets[n]) && j.credential == None
  }

  function JobsAsked(task: Task, targets: seq<Id>): nat {
    if task.action == DeployAlb then |targets| else 1
  }

  /** A started run adds one run row and, under it, exactly the jobs its action asks for: `ids` lists
      the new ones, the n-th doing the n-th piece of the work. */
  lemma StartedRun(q: Queue, tasks: map<Id, Task>, certs: map<Id, Cert>, targets: seq<Id>, now: Time, t: Id) returns (ids: seq<Id>)
    requires Sound(q) && QueueRun(q, tasks, certs, targets, now, t).RunStarted?
    ensures var o := QueueRun(q, tasks, certs, targets, now, t);
            var task, version := tasks[t], if tasks[t].action == RenewCertificate then None else certs[tasks[t].certificate].current;
            && o.run !in q.runs
            && o.q.runs == q.runs[o.run := Run(t, task.certificate, version, RunQueued, |ids|, 0, 0, None)]
            && o.q.execs == q.execs && o.q.challenges == q.challenges
            && (forall i | i in q.jobs :: i in o.q.jobs && o.q.jobs[i] == q.jobs[i])
            && |ids| == JobsAsked(task, targets) && (forall m, n | 0 <= m < n < |ids| :: ids[m] != ids[n])
            && (forall i :: i in o.q.jobs && i !in q.jobs <==> i in ids)
            && forall n | 0 <= n < |ids| :: CarriesTask(o.q.jobs[ids[n]], t, task, o.run, now)
                                            && DoesWork(o.q.jobs[ids[n]], task, targets, n)
  {
    var task := tasks[t];
    var version := if task.action == RenewCertificate then None else certs[task.certificate].current;
    ids := RowsOfRun(q, t, task, version, Slots(task, targets), now);
    ContentOfRun(task, targets);
  }

  function Consecutive(lo: nat, n: nat): (ids: seq<nat>)
    ensures |ids| == n && (forall k | 0 <= k < n :: ids[k] == lo + k) && forall i :: i in ids <==> lo <= i < lo + n
  {
    if n == 0 then [] else Consecutive(lo, n - 1) + [lo + n - 1]
  }

  lemma RowsOfRun(q: Queue, t: Id, task: Task, version: Option<Id>, slots: seq<Option<Id>>, now: Time) returns (ids: seq<Id>)
    requires Sound(q)
    ensures var q' := ManualRun(q, t, task, version, slots, now);
            && q'.runs == q.runs[q.nextId := Run(t, task.certificate, version, RunQueued, |ids|, 0, 0, None)]
            && q.nextId !in q.runs && |ids| == |slots| && (forall m, n | 0 <= m < n < |ids| :: ids[m] != ids[n])
            && (forall i | i in q.jobs :: i in q'.jobs && q'.jobs[i] == q.jobs[i])
            && (forall i :: i in q'.jobs && i !in q.jobs <==> i in ids)
            && forall n | 0 <= n < |ids| :: q'.jobs[ids[n]] == ManualJob(t, task, slots[n], ids[n], q.nextId, now)
  {
    ids := Consecutive(q.nextId + 1, |slots|);
    OldRows(q, t, task, version, slots, now);
    AddedRows(q, t, task, version, slots, now, ids);
  }

  lemma OldRows(q: Queue, t: Id, task: Task, version: Option<Id>, slots: seq<Option<Id>>, now: Time)
    requires Sound(q)
    ensures var jobs' := ManualRun(q, t, task, version, slots, now).jobs;
            forall i | i in q.jobs :: i in jobs' && jobs'[i] == q.jobs[i]
  {
    forall i | i in q.jobs
      ensures i in ManualRun(q, t, task, version, slots, now).jobs && ManualRun(q, t, task, version, slots, now).jobs[i] == q.jobs[i]
    {
      RowAt(q, t, task, version, slots, now, i);
    }
  }

  lemma AddedRows(q: Queue, t: Id, task: Task, version: Option<Id>, slots: seq<Option<Id>>, now: Time, ids: seq<Id>)
    requires Sound(q) && ids == Consecutive(q.nextId + 1, |slots|)
    ensures var jobs' := ManualRun(q, t, task, version, slots, now).jobs;
            && (forall i :: i in jobs' && i !in q.jobs <==> i in ids)
            && forall n | 0 <= n < |ids| :: jobs'[ids[n]] == ManualJob(t, task, slots[n], ids[n], q.nextId, now)
  {
    AddedIds(q, t, task, version, slots, now);
    forall n | 0 <= n < |ids| {
      AddedRow(q, t, task, version, slots, now, n);
    }
  }

  lemma AddedIds(q: Queue, t: Id, task: Task, version: Option<Id>, slots: seq<Option<Id>>, now: Time)
    requires Sound(q)
    ensures forall i :: i in ManualRun(q, t, task, version, slots, now).jobs && i !in q.jobs <==> i in Consecutive(q.nextId + 1, |slots|)
  {
    forall i: Id
      ensures i in ManualRun(q, t, task, version, slots, now).jobs && i !in q.jobs <==> i in Consecutive(q.nextId + 1, |slots|)
    {
      RowAt(q, t, task, version, slots, now, i);
    }
  }

  lemma AddedRow(q: Queue, t: Id, task: Task, version: Option<Id>, slots: seq<Option<Id>>, now: Time, n: nat)
    requires Sound(q) && n < |slots|
    ensures var i, jobs' := Consecutive(q.nextId + 1, |slots|)[n], ManualRun(q, t, task, version, slots, now).jobs;
            i in jobs' && jobs'[i] == ManualJob(t, task, slots[n], i, q.nextId, now)
  {
    RowAt(q, t, task, version, slots, now, q.nextId + 1 + n);
  }

  lemma RowAt(q: Queue, t: Id, task: Task, version: Option<Id>, slots: seq<Option<Id>>, now: Time, i: Id)
    requires Sound(q)
    ensures var jobs', added := ManualRun(q, t, task, version, slots, now).jobs, q.nextId + 1 <= i < q.nextId + 1 + |slots|;
            && (i in jobs' <==> i in q.jobs || added)
            && (i in q.jobs ==> !added && jobs'[i] == q.jobs[i])
            && (added ==> jobs'[i] == ManualJob(t, task, slots[i - q.nextId - 1], i, q.nextId, now))
  {
    ManualJobAt(OpenManualRun(q, t, task, version, |slots|), t, task, slots, q.nextId, now, i);
    if i in q.jobs {
      NoChildYet(q, i);
    }
  }

  lemma ContentOfRun(task: Task, targets: seq<Id>)
    ensures |Slots(task, targets)| == JobsAsked(task, targets)
    ensures forall t, id, run, now, n | 0 <= n < |Slots(task, targets)| ::
              var j := ManualJob(t, task, Slots(task, targets)[n], id, run, now);
              CarriesTask(j, t, task, run, now) && DoesWork(j, task, targets, n)
  {
  }
}
