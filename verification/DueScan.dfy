/** The draining loop of the due scan against its plain description, for a renewal insert that is given
    as many arguments as it has placeholders. */
module DueScan {
  import opened Rows
  import opened Catalog
  import opened Certificates
  import opened Engine
  import opened Fanout
  import opened Scheduling

  /** The tasks the scan may serve for one certificate. */
  function DueFor(s: Sched, now: Time, certificate: Id): set<Id> {
    set t | t in EligibleTasks(s, now) && s.tasks[t].certificate == certificate
  }

  /** The scan may serve a task if and only if it is live and enabled, renews, has come due, and its live
      certificate has a current version that runs out within the renewal window and no issuance queued or
      running. */
  lemma DueIff(s: Sched, now: Time, t: Id)
    ensures t in EligibleTasks(s, now)
            <==> && t in s.tasks && s.tasks[t].enabled && !s.tasks[t].deleted && s.tasks[t].action == RenewCertificate
                 && s.tasks[t].nextRunAt <= now && RunsOut(s, now, s.tasks[t].certificate)
                 && forall i | i in s.q.jobs && s.q.jobs[i].kind in {Issue, Renew}
                               && s.q.jobs[i].certificate == Some(s.tasks[t].certificate) ::
                      s.q.jobs[i].status !in {Queued, Running}
  {
    if t in s.tasks {
      forall i | i in s.q.jobs
        ensures i in ActiveIssuances(s.q.jobs, s.tasks[t].certificate)
                <==> && s.q.jobs[i].kind in {Issue, Renew} && s.q.jobs[i].certificate == Some(s.tasks[t].certificate)
                     && s.q.jobs[i].status in {Queued, Running}
      {
      }
    }
  }

  /** The current version of a live certificate ends no later than its renewal window. */
  predicate RunsOut(s: Sched, now: Time, c: Id) {
    && c in s.certs && !s.certs[c].deleted && s.certs[c].current.Some? && s.certs[c].current.value in s.versions
    && s.versions[s.certs[c].current.value].notAfter <= now + s.certs[c].renewBefore
  }

  function NewJobs(q: Queue, q': Queue): set<Id> {
    q'.jobs.Keys - q.jobs.Keys
  }

  function NewFor(q: Queue, q': Queue, certificate: Id): set<Id> {
    set i | i in NewJobs(q, q') && q'.jobs[i].certificate == Some(certificate)
  }

  /** Job `i` renews `certificate` on behalf of the earliest of its due tasks. */
  ghost predicate RenewsEarliest(s: Sched, q': Queue, now: Time, certificate: Id, i: Id) {
    && i in q'.jobs && certificate in s.certs
    && var j := q'.jobs[i];
       && j.task.Some? && j.run.Some? && j.run.value in q'.runs
       && j.task.value in DueFor(s, now, certificate)
       && (forall u | u in DueFor(s, now, certificate) :: s.tasks[j.task.value].nextRunAt <= s.tasks[u].nextRunAt)
       && j == NewJob(Renew, SchedulerScope(j.task.value), j.key, certificate, None, None, j.task, j.run, now)
       && q'.runs[j.run.value] == Run(j.task.value, certificate, s.certs[certificate].current, RunQueued, 1, 0, 0, None)
  }

  lemma DueAfterOne(s: Sched, now: Time, t: Id, certificate: Id)
    requires Fresh(s.q) && Eligible(s, now, t)
    ensures DueFor(ScanOne(s, now, t), now, certificate)
            == if certificate == s.tasks[t].certificate then {} else DueFor(s, now, certificate)
  {
    forall u | u in s.tasks {
      ScanRetires(s, now, t, u);
    }
  }

  lemma {:induction false} ScanAllGrows(s: Sched, now: Time, log: seq<Id>)
    requires Sound(s.q) && IsScan(s, now, log)
    ensures Grows(s.q, ScanAll(s, now, log).q, now) && Sound(ScanAll(s, now, log).q)
    decreases |log|
  {
    if log != [] {
      ScanGrows(s, now, log[0]);
      ScanAllGrows(ScanOne(s, now, log[0]), now, log[1..]);
      GrowsTransitively(s.q, ScanOne(s, now, log[0]).q, ScanAll(s, now, log).q, now);
    }
  }

  /** No task stays due, and the loop count is the number of jobs added. */
  lemma {:induction false} ScanDrains(s: Sched, now: Time, log: seq<Id>)
    requires Sound(s.q) && IsScan(s, now, log)
    ensures EligibleTasks(ScanAll(s, now, log), now) == {}
    ensures |NewJobs(s.q, ScanAll(s, now, log).q)| == |log|
    decreases |log|
  {
    if log != [] {
      var s1 := ScanOne(s, now, log[0]);
      ScanGrows(s, now, log[0]);
      ScanDrains(s1, now, log[1..]);
      ScanAllGrows(s1, now, log[1..]);
      SplitNewJobs(s.q, s1.q, ScanAll(s, now, log).q, now);
      NewJobsOne(s, now, log[0]);
    } else {
      assert NewJobs(s.q, s.q) == {};
    }
  }

  lemma NewJobsOne(s: Sched, now: Time, t: Id)
    requires Fresh(s.q) && Eligible(s, now, t)
    ensures NewJobs(s.q, ScanOne(s, now, t).q) == {s.q.nextId + 1}
  {
  }

  lemma SplitNewJobs(q: Queue, q1: Queue, q2: Queue, now: Time)
    requires Grows(q, q1, now) && Grows(q1, q2, now)
    ensures |NewJobs(q, q2)| == |NewJobs(q, q1)| + |NewJobs(q1, q2)|
  {
    SplitKeys(q.jobs.Keys, q1.jobs.Keys, q2.jobs.Keys);
  }

  lemma SplitKeys(a: set<Id>, b: set<Id>, c: set<Id>)
    requires a <= b <= c
    ensures |c - a| == |b - a| + |c - b|
  {
    assert c - a == (b - a) + (c - b);
    assert (b - a) !! (c - b);
  }

  /** Exactly one renewal per due certificate, for its earliest due task; none for the others. */
  lemma {:induction false} ScanServes(s: Sched, now: Time, log: seq<Id>, certificate: Id)
    requires Sound(s.q) && IsScan(s, now, log)
    ensures var q' := ScanAll(s, now, log).q;
            var new' := NewFor(s.q, q', certificate);
            && |new'| == (if DueFor(s, now, certificate) == {} then 0 else 1)
            && forall i | i in new' :: RenewsEarliest(s, q', now, certificate, i)
    decreases |log|
  {
    if log == [] {
      assert NewFor(s.q, s.q, certificate) == {};
    } else {
      var s1, q' := ScanOne(s, now, log[0]), ScanAll(s, now, log).q;
      ScanGrows(s, now, log[0]);
      ScanAllGrows(s1, now, log[1..]);
      ScanServes(s1, now, log[1..], certificate);
      DueAfterOne(s, now, log[0], certificate);
      SplitNew(s.q, s1.q, q', now, certificate);
      NewForOne(s, now, log[0], certificate);
      if certificate == s.tasks[log[0]].certificate {
        ServedAtOnce(s, s1.q, q', now, log[0]);
      } else {
        forall i | i in NewFor(s1.q, q', certificate) {
          ServedLater(s, q', now, log[0], certificate, i);
        }
      }
    }
  }

  lemma NewForOne(s: Sched, now: Time, t: Id, certificate: Id)
    requires Fresh(s.q) && Eligible(s, now, t)
    ensures NewFor(s.q, ScanOne(s, now, t).q, certificate)
            == if certificate == s.tasks[t].certificate then {s.q.nextId + 1} else {}
  {
  }

  lemma ServedAtOnce(s: Sched, q1: Queue, q': Queue, now: Time, t: Id)
    requires Fresh(s.q) && Earliest(s, now, t) && q1 == ScanOne(s, now, t).q && Grows(q1, q', now)
    ensures RenewsEarliest(s, q', now, s.tasks[t].certificate, s.q.nextId + 1)
    ensures t in DueFor(s, now, s.tasks[t].certificate)
  {
    assert q'.jobs[s.q.nextId + 1] == q1.jobs[s.q.nextId + 1] == RenewalJob(s, now, t, s.q.nextId);
    assert q'.runs[s.q.nextId] == q1.runs[s.q.nextId];
  }

  lemma ServedLater(s: Sched, q': Queue, now: Time, t: Id, certificate: Id, i: Id)
    requires Fresh(s.q) && Eligible(s, now, t) && certificate != s.tasks[t].certificate
    requires RenewsEarliest(ScanOne(s, now, t), q', now, certificate, i)
    ensures RenewsEarliest(s, q', now, certificate, i)
  {
    DueAfterOne(s, now, t, certificate);
    assert forall u | u in DueFor(s, now, certificate) :: ScanOne(s, now, t).tasks[u] == s.tasks[u];
  }

  lemma SplitNew(q: Queue, q1: Queue, q2: Queue, now: Time, certificate: Id)
    requires Grows(q, q1, now) && Grows(q1, q2, now)
    ensures NewFor(q, q2, certificate) == NewFor(q, q1, certificate) + NewFor(q1, q2, certificate)
    ensures NewFor(q, q1, certificate) !! NewFor(q1, q2, certificate)
  {
  }

  /** Only the served tasks are rescheduled. */
  lemma {:induction false} ScanReschedules(s: Sched, now: Time, log: seq<Id>, t: Id)
    requires Sound(s.q) && IsScan(s, now, log) && t in s.tasks
    ensures t in log ==> Eligible(s, now, t)
    ensures var tasks' := ScanAll(s, now, log).tasks;
            && t in tasks'
            && tasks'[t] == if t in log then s.tasks[t].(nextRunAt := now + s.tasks[t].interval) else s.tasks[t]
    decreases |log|
  {
    if log != [] {
      ScanGrows(s, now, log[0]);
      ScanReschedules(ScanOne(s, now, log[0]), now, log[1..], t);
      ScanRetires(s, now, log[0], t);
    }
  }

  // ---------- how many issuances a certificate can have in flight ----------

  /** No issuance of the certificate is queued, running or waiting for the user. */
  predicate NoneInProgress(jobs: map<Id, Job>, c: Id) {
    forall i | i in jobs && jobs[i].kind in {Issue, Renew} && jobs[i].certificate == Some(c) ::
      jobs[i].status !in {Queued, Running, WaitingUser}
  }

  lemma NoneInProgressIff(jobs: map<Id, Job>, c: Id)
    ensures LiveIssuances(jobs, c) == {} <==> NoneInProgress(jobs, c)
  {
    if LiveIssuances(jobs, c) == {} {
      forall i | i in jobs && jobs[i].kind in {Issue, Renew} && jobs[i].certificate == Some(c)
        ensures jobs[i].status !in {Queued, Running, WaitingUser}
      {
        assert i !in LiveIssuances(jobs, c);
      }
    } else {
      var i :| i in LiveIssuances(jobs, c);
      assert jobs[i].status in {Queued, Running, WaitingUser};
    }
  }

  /** An operator's request is the only path that insists on being alone. */
  lemma RequestIsAlone(q: Queue, certs: map<Id, Cert>, now: Time, c: Id)
    requires Fresh(q)
    ensures var o := QueueIssue(q, certs, now, c);
            && (o.IssueQueued? <==> c in certs && !certs[c].deleted && NoneInProgress(q.jobs, c))
            && (o.IssueQueued? ==> LiveIssuances(o.q.jobs, c) == {o.job})
            && (o.NoCertificate? <==> c !in certs || certs[c].deleted)
  {
    NoneInProgressIff(q.jobs, c);
  }

  /** The scan leaves a certificate with a single live issuance if and only if none was waiting
      for the user: those the scan does not see. */
  lemma ScanIsAloneIff(s: Sched, now: Time, t: Id)
    requires Fresh(s.q) && Eligible(s, now, t)
    ensures var c := s.tasks[t].certificate;
            && LiveIssuances(ScanOne(s, now, t).q.jobs, c) == LiveIssuances(s.q.jobs, c) + {s.q.nextId + 1}
            && (|LiveIssuances(ScanOne(s, now, t).q.jobs, c)| == 1
                <==> forall i | i in s.q.jobs && Issuance(s.q.jobs[i].kind) && s.q.jobs[i].certificate == Some(c) ::
                       s.q.jobs[i].status != WaitingUser)
  {
    var c := s.tasks[t].certificate;
    var live := LiveIssuances(s.q.jobs, c);
    assert LiveIssuances(ScanOne(s, now, t).q.jobs, c) == live + {s.q.nextId + 1};
    forall i | i in live
      ensures s.q.jobs[i].status == WaitingUser
    {
      assert i !in ActiveIssuances(s.q.jobs, c);
    }
    if live == {} {
      forall i | i in s.q.jobs && Issuance(s.q.jobs[i].kind) && s.q.jobs[i].certificate == Some(c)
        ensures s.q.jobs[i].status != WaitingUser
      {
        assert i !in live;
      }
    } else {
      var i :| i in live;
      assert s.q.jobs[i].status == WaitingUser;
      assert |live + {s.q.nextId + 1}| == |live| + 1;
    }
  }

  /** A manual renewal leaves a single live issuance if and only if there was none before: the
      task's own runs are all it checks. */
  lemma ManualRenewalIsAloneIff(q: Queue, tasks: map<Id, Task>, certs: map<Id, Cert>, targets: seq<Id>, now: Time, t: Id)
    requires Fresh(q) && t in tasks && tasks[t].action == RenewCertificate
    requires QueueRun(q, tasks, certs, targets, now, t).RunStarted?
    ensures var c, q' := tasks[t].certificate, QueueRun(q, tasks, certs, targets, now, t).q;
            && LiveIssuances(q'.jobs, c) == LiveIssuances(q.jobs, c) + {q.nextId + 1}
            && (|LiveIssuances(q'.jobs, c)| == 1 <==> LiveIssuances(q.jobs, c) == {})
  {
    var c, q' := tasks[t].certificate, QueueRun(q, tasks, certs, targets, now, t).q;
    assert q'.jobs[q.nextId + 1] == ManualJob(t, tasks[t], None, q.nextId + 1, q.nextId, now);
    assert LiveIssuances(q'.jobs, c) == LiveIssuances(q.jobs, c) + {q.nextId + 1};
  }
}
