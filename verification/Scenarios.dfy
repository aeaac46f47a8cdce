/** Whole histories of engine and certificate rows, from the empty system to the states of interest. */
module Scenarios {
  import opened Rows
  import opened Catalog
  import opened Policy
  import opened System
  import opened Engine
  import opened Scheduling
  import opened Joint
  import opened Histories
  import Evolution
  import EngineTheorems
  import Invariant
  import DueScan
  import Fanout
  import InsertPaths
  import C = Certificates

  ghost predicate Arises(j: Joint) {
    exists now, acts :: ValidActs(Empty(now), acts) && DoAll(Empty(now), acts) == j
  }

  function Empty(now: Time): Joint {
    Joint(Initial(now), map[], map[])
  }

  lemma {:induction false} OneMore(j: Joint, acts: seq<Act>, act: Act)
    requires ValidActs(j, acts) && Allowed(DoAll(j, acts), act)
    ensures ValidActs(j, acts + [act]) && DoAll(j, acts + [act]) == Do(DoAll(j, acts), act)
    decreases |acts|
  {
    if acts == [] {
      assert acts + [act] == [act];
    } else {
      assert (acts + [act])[1..] == acts[1..] + [act];
      OneMore(Do(j, acts[0]), acts[1..], act);
    }
  }

  lemma Start(now: Time)
    ensures Arises(Empty(now))
  {
    assert ValidActs(Empty(now), []) && DoAll(Empty(now), []) == Empty(now);
  }

  lemma Then(j: Joint, act: Act)
    requires Arises(j) && Allowed(j, act)
    ensures Arises(Do(j, act))
  {
    var now, acts :| ValidActs(Empty(now), acts) && DoAll(Empty(now), acts) == j;
    OneMore(Empty(now), acts, act);
  }

  lemma {:induction false} ArisingInv(j: Joint)
    requires Arises(j)
    ensures Invariant.Inv(j.s)
  {
    var now, acts :| ValidActs(Empty(now), acts) && DoAll(Empty(now), acts) == j;
    EngineTheorems.EmptyIsReachable(now);
    EngineTheorems.ReachableInv(Initial(now));
    ActsKeepInv(Empty(now), acts);
  }

  lemma {:induction false} ActsKeepInv(j: Joint, acts: seq<Act>)
    requires Invariant.Inv(j.s) && ValidActs(j, acts)
    ensures Invariant.Inv(DoAll(j, acts).s)
    decreases |acts|
  {
    if acts != [] {
      ActKeeps(j, acts[0]);
      ActsKeepInv(Do(j, acts[0]), acts[1..]);
    }
  }

  // ---------- steps when one job is left to do ----------

  predicate Only(jobs: map<Id, Job>, i: Id) {
    i in jobs && forall k | k in jobs && k != i :: Terminal(jobs[k].status)
  }

  lemma Take0(j: Joint, i: Id) returns (j': Joint)
    requires Arises(j) && 0 !in j.s.workers && Only(j.s.q.jobs, i) && Claimable(j.s.q.jobs[i], j.s.now)
    ensures Arises(j') && j'.s.now == j.s.now && j'.versions == j.versions
    ensures j'.s.q.jobs == j.s.q.jobs[i := ClaimedRow(j.s.q.jobs[i], j.s.now, 0, LEASE_DURATION)]
    ensures j'.s.q.runs == StartRun(j.s.q.runs, j.s.q.jobs[i].run) && j'.s.q.nextId == j.s.q.nextId + 1
    ensures 0 in j'.s.workers && j'.s.workers == j.s.workers[0 := j'.s.workers[0]]
    ensures j'.s.workers[0] == ClaimOf(j'.s.q.jobs[i], i, j.s.q.nextId, j.s.now + LEASE_DURATION)
    ensures j'.certs == C.OnClaim(j.certs, j.s.q.jobs[i].kind, j.s.q.jobs[i].certificate)
  {
    assert IsNext(j.s.q.jobs, j.s.now, i);
    Then(j, Act.Work(Take(0, i)));
    j' := Do(j, Act.Work(Take(0, i)));
  }

  lemma Later(j: Joint, to: Time) returns (j': Joint)
    requires Arises(j) && j.s.now <= to
    ensures Arises(j') && j' == j.(s := j.s.(now := to))
  {
    Then(j, Act.Work(Advance(to)));
    j' := Do(j, Act.Work(Advance(to)));
  }

  /** The first issuance is claimed and its version saved; the worker has not returned yet. */
  lemma VersionSaved(now: Time) returns (j: Joint)
    ensures Arises(j) && j.s.now == now && j.versions == map[0 := Version(0, now)]
    ensures 0 in j.certs && j.certs == map[0 := j.certs[0]] && j.certs[0].current == Some(0) && !j.certs[0].deleted
    ensures j.certs[0].renewBefore == 0
    ensures j.s.q.jobs == map[0 := ClaimedRow(IssueRow(now), now, 0, LEASE_DURATION)] && j.s.q.runs == map[]
    ensures 0 in j.s.workers && j.s.workers == map[0 := j.s.workers[0]] && j.s.q.nextId == 2
    ensures j.s.workers[0] == ClaimOf(j.s.q.jobs[0], 0, 1, now + LEASE_DURATION)
  {
    j := Created0(now);
    j := Take0(j, 0);
    j := Saved0(j, now);
  }

  lemma Created0(now: Time) returns (j: Joint)
    ensures Arises(j) && j.s.now == now && j.s.workers == map[] && j.versions == map[]
    ensures j.s.q.jobs == map[0 := IssueRow(now)] && j.s.q.runs == map[] && j.s.q.nextId == 1
    ensures j.certs == map[0 := Cert(Pending, None, 0, false)]
  {
    Start(now);
    var b := Batch(map[0 := IssueRow(now)], map[], 1);
    Then(Empty(now), Create(0, 0, b));
    j := Do(Empty(now), Create(0, 0, b));
    assert j.s.q.jobs == b.jobs && j.s.q.runs == map[];
  }

  lemma Saved0(j: Joint, notAfter: Time) returns (j': Joint)
    requires Arises(j) && 0 in j.certs && !j.certs[0].deleted && 0 !in j.versions
    ensures Arises(j') && j'.s.now == j.s.now && j'.s.workers == j.s.workers
    ensures j'.s.q.jobs == j.s.q.jobs && j'.s.q.runs == j.s.q.runs && j'.s.q.nextId == j.s.q.nextId
    ensures j'.versions == j.versions[0 := Version(0, notAfter)]
    ensures j'.certs == j.certs[0 := j.certs[0].(status := Issued, current := Some(0))]
  {
    var none := Batch(map[], map[], j.s.q.nextId);
    Then(j, Save(0, 0, notAfter, none));
    j' := Do(j, Save(0, 0, notAfter, none));
    assert j'.s.q.jobs == j.s.q.jobs && j'.s.q.runs == j.s.q.runs;
  }

  // ---------- a renewal withdrawn between two attempts ----------

  function RenewalRow(now: Time): Job {
    ManualJob(0, TaskFor(RenewCertificate), None, 3, 2, now)
  }

  function RenewalRun(): Run {
    Run(0, 0, None, RunQueued, 1, 0, 0, None)
  }

  lemma Complete0(j: Joint) returns (j': Joint)
    requires Arises(j) && 0 in j.s.workers && j.s.workers == map[0 := j.s.workers[0]] && j.s.workers[0].run == None
    requires j.s.workers[0].job == 0 && HoldsLease(j.s.q.jobs, 0, 0)
    ensures Arises(j') && j'.s.now == j.s.now && j'.s.workers == map[] && j'.certs == j.certs && j'.versions == j.versions
    ensures j'.s.q.jobs == j.s.q.jobs[0 := j.s.q.jobs[0].(status := Succeeded, lease := None)]
    ensures j'.s.q.runs == j.s.q.runs && j'.s.q.nextId == j.s.q.nextId
  {
    Then(j, Act.Work(Finish(0, Returned)));
    j' := Do(j, Act.Work(Finish(0, Returned)));
    assert j'.s.workers == map[];
  }

  /** The first issuance is done. */
  lemma FirstDone0(now: Time) returns (j: Joint)
    ensures Arises(j) && j.s.now == now && j.s.workers == map[] && j.versions == map[0 := Version(0, now)]
    ensures 0 in j.certs && !j.certs[0].deleted && j.certs[0].current == Some(0) && j.certs[0].renewBefore == 0
    ensures j.s.q.jobs.Keys == {0} && j.s.q.jobs[0].status == Succeeded && j.s.q.runs == map[] && j.s.q.nextId == 2
  {
    j := VersionSaved(now);
    j := Complete0(j);
  }

  /** An operator starts a run of its renewal task. */
  lemma RenewalQueued(now: Time) returns (j: Joint)
    ensures Arises(j) && j.s.now == now && j.s.workers == map[]
    ensures 0 in j.certs && !j.certs[0].deleted && j.certs[0].current == Some(0)
    ensures j.s.q.jobs.Keys == {0, 3} && j.s.q.jobs[3] == RenewalRow(now) && j.s.q.jobs[0].status == Succeeded
    ensures j.s.q.runs == map[2 := RenewalRun()]
  {
    j := FirstDone0(now);
    assert LiveRuns(j.s.q.runs, 0) == {};
    OneSlotRun(j.s.q, 0, TaskFor(RenewCertificate), None, None, now);
    j := Manual0(j, TaskFor(RenewCertificate));
  }

  lemma Manual0(j: Joint, task: Task) returns (j': Joint)
    requires Arises(j) && QueueRun(j.s.q, map[0 := task], j.certs, [], j.s.now, 0).RunStarted?
    ensures Arises(j') && j' == j.(s := j.s.(q := QueueRun(j.s.q, map[0 := task], j.certs, [], j.s.now, 0).q))
  {
    var q' := QueueRun(j.s.q, map[0 := task], j.certs, [], j.s.now, 0).q;
    ArisingInv(j);
    InsertPaths.InvIsSound(j.s);
    InsertPaths.RunGrows(j.s.q, map[0 := task], j.certs, [], j.s.now, 0);
    InsertPaths.GrowthIsAStep(j.s, q');
    var act := Act.Work(System.Insert(Fanout.Added(j.s.q, q')));
    Then(j, act);
    j' := Do(j, act);
  }

  lemma Retry0(j: Joint, i: Id, r: Id) returns (j': Joint)
    requires Arises(j) && 0 in j.s.workers && j.s.workers[0].job == i && j.s.workers[0].run == Some(r) && r in j.s.q.runs
    requires HoldsLease(j.s.q.jobs, i, 0) && j.s.workers[0].attempt < j.s.workers[0].maxAttempts
    ensures Arises(j') && j'.certs == j.certs && i in j'.s.q.jobs
    ensures j'.s.q.jobs == j.s.q.jobs[i := j'.s.q.jobs[i]] && j'.s.q.jobs[i].status == Queued
    ensures Evolution.SameIdentity(j.s.q.jobs[i], j'.s.q.jobs[i])
  {
    Then(j, Act.Work(Finish(0, Unclassified)));
    j' := Do(j, Act.Work(Finish(0, Unclassified)));
  }

  /** Its renewal fails once, is queued again, and the task is updated: the certificate stays renewing
      with nothing at work. */
  lemma WithdrawnRenewalDangles(now: Time) returns (j: Joint)
    ensures Arises(j) && Dangles(j, 0) && j.certs[0].current == Some(0)
  {
    var j1 := RenewalRetried(now);
    Then(j1, Act.Work(Cancel(0)));
    j := Do(j1, Act.Work(Cancel(0)));
    assert LiveIssuances(j.s.q.jobs, 0) == {};
  }

  lemma RenewalRetried(now: Time) returns (j: Joint)
    ensures Arises(j) && 0 in j.certs && !j.certs[0].deleted && j.certs[0].current == Some(0) && j.certs[0].status == Renewing
    ensures j.s.q.jobs.Keys == {0, 3} && j.s.q.jobs[0].status == Succeeded
    ensures j.s.q.jobs[3].status == Queued && j.s.q.jobs[3].task == Some(0)
  {
    j := RenewalQueued(now);
    j := Take0(j, 3);
    j := Retry0(j, 3, 2);
  }

  // ---------- two issuances at once ----------

  lemma Lost0(j: Joint) returns (j': Joint)
    requires Arises(j) && 0 in j.s.workers && j.s.workers == map[0 := j.s.workers[0]]
    requires 0 in j.s.q.jobs && j.s.q.jobs == map[0 := j.s.q.jobs[0]] && Expired(j.s.q.jobs[0], j.s.now)
    requires j.certs.Keys == {0}
    ensures Arises(j') && j'.s.now == j.s.now && j'.s.workers == map[] && j'.versions == j.versions
    ensures j'.s.q.jobs == map[0 := RecoveredRow(j.s.q.jobs[0], j.s.now, MINUTE)]
    ensures 0 in j'.certs && j'.certs == map[0 := j'.certs[0]] && j'.certs[0] == j.certs[0].(status := j'.certs[0].status)
  {
    var j1 := Dead0(j);
    assert ListsExpired(j1.s.q.jobs, j1.s.now, [0]);
    Then(j1, Act.Work(Recover([0])));
    j' := Do(j1, Act.Work(Recover([0])));
    RecoverOne0(j1.s.q, j1.s.now);
    WorkKeepsKeys(j1.s, j1.certs, Recover([0]));
    WorkKeepsRow(j1.s, j1.certs, Recover([0]), 0);
  }

  lemma Dead0(j: Joint) returns (j': Joint)
    requires Arises(j) && 0 in j.s.workers && j.s.workers == map[0 := j.s.workers[0]]
    ensures Arises(j') && j' == j.(s := j.s.(workers := map[]))
  {
    Then(j, Act.Work(Abandon(0)));
    j' := Do(j, Act.Work(Abandon(0)));
    assert j'.s.workers == map[];
  }

  lemma RecoverOne0(q: Queue, now: Time)
    requires 0 in q.jobs && q.jobs == map[0 := q.jobs[0]]
    ensures RecoverJobs(q, now, RetryDelay(1), [0]).jobs == map[0 := RecoveredRow(q.jobs[0], now, MINUTE)]
  {
    RecoveryIsOneUpdate(q, now, RetryDelay(1), [0]);
    assert Elements([0]) == {0};
  }

  lemma Park0(j: Joint) returns (j': Joint)
    requires Arises(j) && 0 in j.s.workers && j.s.workers == map[0 := j.s.workers[0]] && j.s.workers[0].run == None
    requires j.s.workers[0].job == 0 && j.s.workers[0].certificate == Some(0) && HoldsLease(j.s.q.jobs, 0, 0)
    ensures Arises(j') && j'.s.now == j.s.now && j'.s.workers == map[] && j'.certs == j.certs && j'.versions == j.versions
    ensures j'.s.q.jobs == j.s.q.jobs[0 := j.s.q.jobs[0].(status := WaitingUser, lease := None)]
  {
    Then(j, Act.Work(Present(0)));
    var j1 := Do(j, Act.Work(Present(0)));
    Then(j1, Act.Work(Finish(0, PARK)));
    j' := Do(j1, Act.Work(Finish(0, PARK)));
    assert j'.s.workers == map[];
  }

  /** A worker saves the first version and dies; the job is claimed again and waits for the user. */
  lemma IssuedAndWaiting(now: Time) returns (j: Joint)
    ensures Arises(j) && j.versions == map[0 := Version(0, now)] && now <= j.s.now
    ensures 0 in j.certs && !j.certs[0].deleted && j.certs[0].current == Some(0) && j.certs[0].renewBefore == 0
    ensures 0 in j.s.q.jobs && j.s.q.jobs == map[0 := j.s.q.jobs[0]] && j.s.q.runs == map[]
    ensures j.s.q.jobs[0].kind == Issue && j.s.q.jobs[0].certificate == Some(0) && j.s.q.jobs[0].status == WaitingUser
  {
    var j1 := VersionSaved(now);
    j1 := Later(j1, now + LEASE_DURATION);
    j1 := Lost0(j1);
    j1 := Later(j1, j1.s.now + MINUTE);
    j1 := Take0(j1, 0);
    j := Park0(j1);
    ArisingRuns(j);
  }

  lemma RunsHaveChildren(j: Joint)
    requires Arises(j)
    ensures forall r | r in j.s.q.runs :: Children(j.s.q.jobs, r) != {}
  {
    ArisingInv(j);
    forall r | r in j.s.q.runs
      ensures Children(j.s.q.jobs, r) != {}
    {
      assert Invariant.RunOk(j.s.q.jobs, r, j.s.q.runs[r]);
    }
  }

  lemma ArisingRuns(j: Joint)
    requires Arises(j) && 0 in j.s.q.jobs && j.s.q.jobs == map[0 := j.s.q.jobs[0]] && j.s.q.jobs[0].run == None
    ensures j.s.q.runs == map[]
  {
    RunsHaveChildren(j);
    assert forall r :: Children(j.s.q.jobs, r) == {};
    assert j.s.q.runs.Keys == {};
  }

  function DueTask(now: Time): map<Id, Task> {
    map[0 := Task(0, RenewCertificate, None, 3600, true, false, now)]
  }

  lemma ArisingIsFresh(j: Joint)
    requires Arises(j)
    ensures Fanout.Fresh(j.s.q)
  {
    ArisingInv(j);
  }

  /** An issued certificate that is due for renewal, now and at every later time: the scan fails each
      time, and leaves the tables as they were. */
  lemma DueAndNeverServed(now: Time) returns (j: Joint)
    ensures Arises(j) && j.s.q.jobs.Keys == {0} && j.s.q.jobs[0].status == Succeeded
    ensures forall later | later >= j.s.now ::
              EligibleTasks(Sched(j.s.q, DueTask(j.s.now), j.certs, j.versions), later) == {0}
  {
    j := FirstDone0(now);
    assert ActiveIssuances(j.s.q.jobs, 0) == {};
    forall later | later >= j.s.now
      ensures EligibleTasks(Sched(j.s.q, DueTask(j.s.now), j.certs, j.versions), later) == {0}
    {
      assert Eligible(Sched(j.s.q, DueTask(j.s.now), j.certs, j.versions), later, 0);
    }
  }

  /** Were its insert accepted, the due scan would add a second live issuance while the first waits. */
  lemma ScanAddsSecondIssuance(now: Time) returns (j: Joint)
    ensures Arises(j)
    ensures var s := Sched(j.s.q, DueTask(j.s.now), j.certs, j.versions);
            Eligible(s, j.s.now, 0) && |LiveIssuances(ScanOne(s, j.s.now, 0).q.jobs, 0)| == 2
  {
    j := IssuedAndWaiting(now);
    var s := Sched(j.s.q, DueTask(j.s.now), j.certs, j.versions);
    ArisingIsFresh(j);
    assert LiveIssuances(s.q.jobs, 0) == {0};
    assert ActiveIssuances(s.q.jobs, 0) == {};
    DueScan.ScanIsAloneIff(s, j.s.now, 0);
  }

  /** A manual renewal does add one. */
  lemma ManualRenewalAddsSecondIssuance(now: Time) returns (j: Joint)
    ensures Arises(j)
    ensures var o := QueueRun(j.s.q, DueTask(j.s.now), j.certs, [], j.s.now, 0);
            o.RunStarted? && |LiveIssuances(o.q.jobs, 0)| == 2
  {
    j := IssuedAndWaiting(now);
    ArisingIsFresh(j);
    assert LiveRuns(j.s.q.runs, 0) == {};
    assert LiveIssuances(j.s.q.jobs, 0) == {0};
    DueScan.ManualRenewalIsAloneIff(j.s.q, DueTask(j.s.now), j.certs, [], j.s.now, 0);
  }
}
