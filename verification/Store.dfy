/** The store as the mutable object it is: one method per transaction, each leaving the tables as
    the transaction functions say. The database clock and the worker's inputs are parameters. */
module Stores {
  import opened Rows
  import opened Catalog
  import opened Engine
  import opened Certificates
  import opened Fanout
  import opened FanoutTheorems
  import opened Scheduling
  import TaskAdmin

  // ---------- rows a query can return ----------

  /** ORDER BY ... LIMIT 1 finds a row whenever one qualifies. */
  lemma {:induction false} NextExists(jobs: map<Id, Job>, now: Time, ids: set<Id>)
    requires ids != {} && forall i | i in ids :: i in jobs && Claimable(jobs[i], now)
    ensures exists i :: i in ids && forall k | k in ids :: NotAfter(jobs[i], jobs[k])
    decreases ids
  {
    var x :| x in ids;
    if ids - {x} != {} {
      NextExists(jobs, now, ids - {x});
      var i :| i in ids - {x} && forall k | k in ids - {x} :: NotAfter(jobs[i], jobs[k]);
      var least := if NotAfter(jobs[i], jobs[x]) then i else x;
      assert forall k | k in ids :: k == x || k in ids - {x};
      assert forall k | k in ids :: NotAfter(jobs[least], jobs[k]);
    } else {
      assert ids == {x};
    }
  }

  lemma SomethingIsNext(jobs: map<Id, Job>, now: Time)
    requires exists i :: i in jobs && Claimable(jobs[i], now)
    ensures exists i :: i in jobs && IsNext(jobs, now, i)
  {
    var ids := set i | i in jobs && Claimable(jobs[i], now);
    var w :| w in jobs && Claimable(jobs[w], now);
    assert w in ids;
    NextExists(jobs, now, ids);
    var i :| i in ids && forall k | k in ids :: NotAfter(jobs[i], jobs[k]);
    assert IsNext(jobs, now, i);
  }

  lemma {:induction false} LatestExists(challenges: map<Id, Challenge>, ids: set<Id>)
    requires ids != {} && forall i | i in ids :: i in challenges
    ensures exists i :: i in ids && forall k | k in ids :: challenges[k].createdAt <= challenges[i].createdAt
    decreases ids
  {
    var x :| x in ids;
    if ids - {x} != {} {
      LatestExists(challenges, ids - {x});
      var i :| i in ids - {x} && forall k | k in ids - {x} :: challenges[k].createdAt <= challenges[i].createdAt;
      var latest := if challenges[x].createdAt <= challenges[i].createdAt then i else x;
      assert forall k | k in ids :: k == x || k in ids - {x};
      assert forall k | k in ids :: challenges[k].createdAt <= challenges[latest].createdAt;
    } else {
      assert ids == {x};
    }
  }

  predicate IsWaiting(challenges: map<Id, Challenge>, certificate: Id, job: Id) {
    job in challenges && challenges[job].certificate == certificate && challenges[job].status == ChallengeWaiting
  }

  lemma SomethingIsLatest(challenges: map<Id, Challenge>, certificate: Id)
    requires exists job :: job in challenges && IsWaiting(challenges, certificate, job)
    ensures exists job :: job in challenges && IsLatestWaiting(challenges, certificate, job)
  {
    var ids := set i | i in challenges && IsWaiting(challenges, certificate, i);
    var w :| w in challenges && IsWaiting(challenges, certificate, w);
    assert w in ids;
    LatestExists(challenges, ids);
    var i :| i in ids && forall k | k in ids :: challenges[k].createdAt <= challenges[i].createdAt;
    assert IsLatestWaiting(challenges, certificate, i);
  }

  // ---------- joins ----------

  /** The rows of one task in the join. */
  ghost predicate RowsOf(rows: seq<Joined>, tasks: map<Id, Task>, links: map<LinkKey, Link>, t: Id)
    requires t in tasks
  {
    && rows != []
    && (forall n | 0 <= n < |rows| ::
          && rows[n] == Joined(t, tasks[t].action, tasks[t].credential, rows[n].target)
          && (rows[n].target.Some? ==> Linked(links, t, rows[n].target.value)))
    && (forall g: Id | Linked(links, t, g) :: exists n :: 0 <= n < |rows| && rows[n].target == Some(g))
  }

  /** The join of all tasks but those still to be looked at. */
  ghost predicate JoinsAllBut(rows: seq<Joined>, tasks: map<Id, Task>, links: map<LinkKey, Link>, certificate: Id, left: set<Id>) {
    && (forall n | 0 <= n < |rows| :: RowOk(rows[n], tasks, links, certificate))
    && (forall t | Delivers(tasks, t, certificate) && t !in left :: exists n :: 0 <= n < |rows| && rows[n].task == t)
    && (forall t: Id, g: Id | Delivers(tasks, t, certificate) && t !in left && Linked(links, t, g) ::
          exists n :: 0 <= n < |rows| && rows[n].task == t && rows[n].target == Some(g))
  }

  lemma JoinsOneMore(rows: seq<Joined>, more: seq<Joined>, tasks: map<Id, Task>, links: map<LinkKey, Link>,
                     certificate: Id, left: set<Id>, t: Id)
    requires JoinsAllBut(rows, tasks, links, certificate, left)
    requires Delivers(tasks, t, certificate) && RowsOf(more, tasks, links, t)
    ensures JoinsAllBut(rows + more, tasks, links, certificate, left - {t})
  {
    var all := rows + more;
    forall u | Delivers(tasks, u, certificate) && u !in left - {t}
      ensures exists n :: 0 <= n < |all| && all[n].task == u
    {
      if u == t {
        assert all[|rows|] == more[0];
      } else {
        var n :| 0 <= n < |rows| && rows[n].task == u;
        assert all[n] == rows[n];
      }
    }
    forall u: Id, g: Id | Delivers(tasks, u, certificate) && u !in left - {t} && Linked(links, u, g)
      ensures exists n :: 0 <= n < |all| && all[n].task == u && all[n].target == Some(g)
    {
      if u == t {
        var n :| 0 <= n < |more| && more[n].target == Some(g);
        assert all[|rows| + n] == more[n];
      } else {
        var n :| 0 <= n < |rows| && rows[n].task == u && rows[n].target == Some(g);
        assert all[n] == rows[n];
      }
    }
    forall n | 0 <= n < |all|
      ensures RowOk(all[n], tasks, links, certificate)
    {
      assert n >= |rows| ==> all[n] == more[n - |rows|];
    }
  }

  /** Enabled links of a task, each once, by position. */
  ghost predicate ListsEnabled(ids: seq<Id>, links: map<LinkKey, Link>, t: Id) {
    && (forall g: Id :: g in ids <==> Linked(links, t, g))
    && (forall m, n | 0 <= m < n < |ids| :: ids[m] != ids[n])
    && (forall m, n | 0 <= m < n < |ids| && Linked(links, t, ids[m]) && Linked(links, t, ids[n]) ::
          links[LinkKey(t, ids[m])].position <= links[LinkKey(t, ids[n])].position)
  }

  /** The enabled links but those still to be listed, all of which come later. */
  ghost predicate ListsAllBut(ids: seq<Id>, links: map<LinkKey, Link>, t: Id, left: set<LinkKey>) {
    && (forall g: Id :: g in ids <==> Linked(links, t, g) && LinkKey(t, g) !in left)
    && (forall m, n | 0 <= m < n < |ids| :: ids[m] != ids[n])
    && (forall m, n | 0 <= m < n < |ids| && Linked(links, t, ids[m]) && Linked(links, t, ids[n]) ::
          links[LinkKey(t, ids[m])].position <= links[LinkKey(t, ids[n])].position)
    && (forall g, k | Linked(links, t, g) && LinkKey(t, g) !in left && k in left && k in links ::
          links[LinkKey(t, g)].position <= links[k].position)
  }

  lemma ListsOneMore(ids: seq<Id>, links: map<LinkKey, Link>, t: Id, left: set<LinkKey>, k: LinkKey)
    requires ListsAllBut(ids, links, t, left)
    requires k in left && k in links && k.task == t && links[k].enabled
    requires forall m | m in left :: m in links && links[k].position <= links[m].position
    ensures ListsAllBut(ids + [k.target], links, t, left - {k})
  {
    var all := ids + [k.target];
    assert k == LinkKey(t, k.target) && Linked(links, t, k.target);
    forall m, n | 0 <= m < n < |all|
      ensures all[m] != all[n]
      ensures links[LinkKey(t, all[m])].position <= links[LinkKey(t, all[n])].position
    {
      assert all[m] == ids[m] && ids[m] in ids;
      assert n < |ids| ==> all[n] == ids[n] && ids[n] in ids;
    }
  }

  lemma RowsOfListed(rows: seq<Joined>, ids: seq<Id>, tasks: map<Id, Task>, links: map<LinkKey, Link>, t: Id)
    requires t in tasks && ListsEnabled(ids, links, t) && |rows| == |ids| > 0
    requires forall m | 0 <= m < |ids| :: rows[m] == Joined(t, tasks[t].action, tasks[t].credential, Some(ids[m]))
    ensures RowsOf(rows, tasks, links, t)
  {
    forall n | 0 <= n < |rows|
      ensures Linked(links, t, rows[n].target.value)
    {
      assert ids[n] in ids;
    }
    forall g: Id | Linked(links, t, g)
      ensures exists n :: 0 <= n < |rows| && rows[n].target == Some(g)
    {
      var n :| 0 <= n < |ids| && ids[n] == g;
      assert rows[n].target == Some(g);
    }
  }

  lemma {:induction false} FirstPosition(links: map<LinkKey, Link>, left: set<LinkKey>)
    requires left != {} && left <= links.Keys
    ensures exists k :: k in left && forall m | m in left :: links[k].position <= links[m].position
    decreases left
  {
    var x :| x in left;
    if left - {x} != {} {
      FirstPosition(links, left - {x});
      var k :| k in left - {x} && forall m | m in left - {x} :: links[k].position <= links[m].position;
      var first := if links[k].position <= links[x].position then k else x;
      assert forall m | m in left :: m == x || m in left - {x};
      assert forall m | m in left :: links[first].position <= links[m].position;
    } else {
      assert left == {x};
    }
  }

  class Store {
    var jobs: map<Id, Job>
    var execs: map<Id, Execution>
    var runs: map<Id, Run>
    var challenges: map<Id, Challenge>
    var nextId: Id
    var certs: map<Id, Cert>
    var versions: map<Id, Version>
    var credentials: map<Id, bool>
    var tasks: map<Id, Task>
    var links: map<LinkKey, Link>
    var targets: map<Id, Target>
    var deployments: map<Id, Deployment>

    ghost function Q(): Queue
      reads this
    {
      Queue(jobs, execs, runs, challenges, nextId)
    }

    constructor ()
      ensures Q() == Queue(map[], map[], map[], map[], 0) && certs == map[] && versions == map[]
      ensures credentials == map[] && tasks == map[] && links == map[] && targets == map[] && deployments == map[]
    {
      jobs, execs, runs, challenges, nextId := map[], map[], map[], map[], 0;
      certs, versions, credentials := map[], map[], map[];
      tasks, links, targets, deployments := map[], map[], map[], map[];
    }

    // ---------- the job engine ----------

    method ClaimJob(now: Time, worker: Id, lease: Time) returns (claim: Option<Claim>)
      modifies `jobs, `execs, `runs, `nextId, `certs
      ensures claim.None? ==>
                && Q() == old(Q()) && certs == old(certs)
                && forall i | i in jobs :: !Claimable(jobs[i], now)
      ensures claim.Some? ==>
                var id := claim.value.job;
                && IsNext(old(jobs), now, id)
                && Q() == Engine.ClaimJob(old(Q()), now, worker, lease, id)
                && claim.value == ClaimOf(jobs[id], id, old(nextId), now + lease)
                && certs == OnClaim(old(certs), jobs[id].kind, jobs[id].certificate)
    {
      if !(exists i | i in jobs :: Claimable(jobs[i], now)) {
        return None;
      }
      SomethingIsNext(jobs, now);
      var id :| id in jobs && IsNext(jobs, now, id);
      var c := LeaseJob(now, worker, lease, id);
      return Some(c);
    }

    /** The update of the chosen row, and what the transaction writes with it. */
    method LeaseJob(now: Time, worker: Id, lease: Time, id: Id) returns (claim: Claim)
      requires IsNext(jobs, now, id)
      modifies `jobs, `execs, `runs, `nextId, `certs
      ensures Q() == Engine.ClaimJob(old(Q()), now, worker, lease, id)
      ensures claim == ClaimOf(jobs[id], id, old(nextId), now + lease)
      ensures certs == OnClaim(old(certs), jobs[id].kind, jobs[id].certificate)
    {
      var j := ClaimedRow(jobs[id], now, worker, lease);
      jobs := jobs[id := j];
      var exec := nextId;
      nextId := nextId + 1;
      execs := execs[exec := Execution(id, ExecRunning, j.attempt, j.maxAttempts, None)];
      if j.certificate.Some? && (j.kind == Issue || j.kind == Renew) {
        certs := SetStatus(certs, j.certificate.value, if j.kind == Renew then Renewing else Issuing);
      }
      if j.run.Some? {
        if j.run.value in runs && runs[j.run.value].status == RunQueued {
          runs := runs[j.run.value := runs[j.run.value].(status := RunRunning)];
        }
      }
      claim := ClaimOf(j, id, exec, now + lease);
    }

    /** refreshAutomationRun: count the children, derive the verdict, write the run. */
    method RefreshAutomationRun(run: Id, now: Time) returns (ok: bool)
      modifies `runs
      ensures ok <==> run in old(runs)
      ensures Q() == if ok then Refresh(old(Q()), Some(run), now) else old(Q())
    {
      if run !in runs {
        return false;
      }
      var total := |Children(jobs, run)|;
      var succeeded := |ChildrenIn(jobs, run, {Succeeded})|;
      var failed := |ChildrenIn(jobs, run, {Failed})|;
      var active := |ChildrenIn(jobs, run, {Queued, Running})|;
      var waiting := |ChildrenIn(jobs, run, {WaitingUser})|;
      var status, finished := RunQueued, false;
      if waiting > 0 {
        status := RunWaiting;
      } else if active > 0 {
        status := RunRunning;
      } else if failed > 0 && succeeded > 0 {
        status, finished := RunPartial, true;
      } else if failed > 0 {
        status, finished := RunFailed, true;
      } else if total > 0 && succeeded == total {
        status, finished := RunSucceeded, true;
      }
      runs := runs[run := runs[run].(status := status, total := total, succeeded := succeeded, failed := failed,
                                     finished := if finished then Some(now) else None)];
      return true;
    }

    /** A failed refresh rolls the transaction back. */
    method CompleteJob(now: Time, c: Claim, worker: Id) returns (ok: bool)
      modifies `jobs, `execs, `runs
      ensures match Engine.CompleteJob(old(Q()), now, c, worker)
              case None => !ok && Q() == old(Q())
              case Some(q) => ok && Q() == q
    {
      if !HoldsLease(jobs, c.job, worker) {
        return false;
      }
      var jobs0, execs0 := jobs, execs;
      jobs := jobs[c.job := jobs[c.job].(status := Succeeded, lease := None)];
      execs := CloseExec(execs, c.exec, ExecSucceeded, None);
      if c.run.Some? {
        ok := RefreshAutomationRun(c.run.value, now);
        if !ok {
          jobs, execs := jobs0, execs0;
          return;
        }
      }
      return true;
    }

    method FailJob(now: Time, c: Claim, worker: Id, code: ErrorCode, retry: Option<Time>) returns (ok: bool)
      modifies `jobs, `execs, `runs, `certs
      ensures match Engine.FailJob(old(Q()), now, c, worker, code, retry)
              case None => !ok && Q() == old(Q()) && certs == old(certs)
              case Some(q) => ok && Q() == q && certs == OnFail(old(certs), c.kind, c.certificate, retry.None?)
    {
      if !HoldsLease(jobs, c.job, worker) {
        return false;
      }
      var jobs0, execs0 := jobs, execs;
      jobs := jobs[c.job := FailedRow(jobs[c.job], now, retry)];
      execs := CloseExec(execs, c.exec, ExecFailed, Some(code));
      if c.run.Some? {
        ok := RefreshAutomationRun(c.run.value, now);
        if !ok {
          jobs, execs := jobs0, execs0;
          return;
        }
      }
      if c.certificate.Some? && (c.kind == Issue || c.kind == Renew) && retry.None? {
        if c.kind == Issue {
          certs := SetStatus(certs, c.certificate.value, IssueFailed);
        } else if c.certificate.value in certs && certs[c.certificate.value].current.Some? {
          certs := SetStatus(certs, c.certificate.value, Issued);
        }
      }
      return true;
    }

    /** The number of rows changed is not looked at. */
    method MarkJobWaitingUser(now: Time, c: Claim, worker: Id, code: ErrorCode) returns (ok: bool)
      modifies `jobs, `execs, `runs
      ensures match Engine.MarkWaiting(old(Q()), now, c, worker, code)
              case None => !ok && Q() == old(Q())
              case Some(q) => ok && Q() == q
    {
      var jobs0, execs0 := jobs, execs;
      if HoldsLease(jobs, c.job, worker) {
        jobs := jobs[c.job := jobs[c.job].(status := WaitingUser, lease := None)];
      }
      execs := CloseExec(execs, c.exec, ExecWaiting, Some(code));
      if c.run.Some? {
        ok := RefreshAutomationRun(c.run.value, now);
        if !ok {
          jobs, execs := jobs0, execs0;
          return;
        }
      }
      return true;
    }

    /** Two loops, as in the source: the expired rows are read first, then updated one by one. */
    method RecoverExpiredJobs(now: Time, delay: Time) returns (count: nat, ghost ids: seq<Id>)
      modifies `jobs, `execs, `certs
      ensures ListsAllExpired(old(jobs), now, ids) && count == |ids|
      ensures Q() == RecoverJobs(old(Q()), now, delay, ids)
      ensures certs == RecoverCerts(old(certs), old(jobs), ids)
    {
      var deferred := ExpiredRows(jobs, now);
      ids := deferred;
      count := |deferred|;
      for k := 0 to |deferred|
        invariant Elements(deferred) <= old(jobs).Keys == jobs.Keys
        invariant runs == old(runs) && challenges == old(challenges) && nextId == old(nextId)
        invariant forall m | k <= m < |deferred| :: jobs[deferred[m]] == old(jobs)[deferred[m]]
        invariant RecoverJobs(Q(), now, delay, deferred[k..]) == RecoverJobs(old(Q()), now, delay, deferred)
        invariant RecoverCerts(certs, old(jobs), deferred[k..]) == RecoverCerts(old(certs), old(jobs), deferred)
      {
        assert deferred[k..][0] == deferred[k] && deferred[k..][1..] == deferred[k + 1..];
        RecoverRow(deferred[k], jobs[deferred[k]], now, delay);
      }
    }

    /** One pass of the second loop over the row as it was read. */
    method RecoverRow(id: Id, item: Job, now: Time, delay: Time)
      requires id in jobs && item == jobs[id]
      modifies `jobs, `execs, `certs
      ensures Q() == RecoverOne(old(Q()), now, delay, id)
      ensures certs == OnRecover(old(certs), item.kind, item.certificate, item.attempt >= item.maxAttempts)
    {
      execs := InterruptExecs(execs, id);
      if item.certificate.Some? && (item.kind == Issue || item.kind == Renew) {
        if item.kind == Issue {
          certs := SetStatus(certs, item.certificate.value, if item.attempt >= item.maxAttempts then IssueFailed else Pending);
        } else if item.certificate.value in certs && certs[item.certificate.value].current.Some? {
          certs := SetStatus(certs, item.certificate.value, Issued);
        }
      }
      if item.attempt >= item.maxAttempts {
        jobs := jobs[id := item.(status := Failed, lease := None)];
        return;
      }
      jobs := jobs[id := item.(status := Queued, lease := None, nextRunAt := now + delay)];
    }

    // ---------- manual validation ----------

    method SaveManualChallenge(now: Time, job: Id, certificate: Id)
      modifies `challenges
      ensures Q() == SaveChallenge(old(Q()), now, job, certificate)
    {
      if job in challenges {
        challenges := challenges[job := challenges[job].(status := ChallengeWaiting)];
      } else {
        challenges := challenges[job := Challenge(certificate, ChallengeWaiting, now)];
      }
    }

    method ApproveManualChallenge(now: Time, certificate: Id) returns (job: Option<Id>)
      modifies `challenges, `jobs
      ensures job.None? ==> Q() == old(Q()) && forall i | i in challenges :: !IsWaiting(challenges, certificate, i)
      ensures job.Some? ==>
                && IsLatestWaiting(old(challenges), certificate, job.value)
                && Q() == Approve(old(Q()), now, job.value)
    {
      if !(exists i | i in challenges :: IsWaiting(challenges, certificate, i)) {
        return None;
      }
      SomethingIsLatest(challenges, certificate);
      var id :| id in challenges && IsLatestWaiting(challenges, certificate, id);
      challenges := challenges[id := challenges[id].(status := ChallengeApproved)];
      if id in jobs && jobs[id].status == WaitingUser {
        jobs := jobs[id := jobs[id].(status := Queued, nextRunAt := now)];
      }
      return Some(id);
    }

    // ---------- inserting ----------

    /** INSERT ... ON CONFLICT DO NOTHING; the result is RowsAffected. */
    method InsertJob(j: Job) returns (added: nat)
      modifies `jobs, `nextId
      ensures Q() == Insert(old(Q()), j)
      ensures added == if HasKey(old(jobs), j.scope, j.key) then 0 else 1
    {
      if HasKey(jobs, j.scope, j.key) {
        return 0;
      }
      jobs := jobs[nextId := j];
      nextId := nextId + 1;
      return 1;
    }

    /** queueDeployment, the insert behind QueueDeployment. */
    method QueueDeployment(now: Time, deployment: Id) returns (ok: bool)
      modifies `jobs, `nextId
      ensures ok <==> deployment in deployments && deployments[deployment].enabled
                      && deployments[deployment].certificate in certs && certs[deployments[deployment].certificate].current.Some?
      ensures !ok ==> Q() == old(Q())
      ensures ok ==>
                var d := deployments[deployment];
                Q() == Insert(old(Q()), LegacyJob(Material(d.certificate, certs[d.certificate].current.value), d.target, now))
    {
      if deployment !in deployments || !deployments[deployment].enabled {
        return false;
      }
      var d := deployments[deployment];
      if d.certificate !in certs || certs[d.certificate].current.None? {
        return false;
      }
      var _ := InsertJob(LegacyJob(Material(d.certificate, certs[d.certificate].current.value), d.target, now));
      return true;
    }

    /** The targets of the certificate's automatic deployments. */
    method AutoDeployTargets(certificate: Id) returns (ids: seq<Id>)
      ensures ListsAutoDeploys(ids, deployments, certificate)
    {
      ids := [];
      var left := deployments.Keys;
      while left != {}
        invariant left <= deployments.Keys
        invariant forall g :: g in ids <==>
                    exists d | d in deployments && d !in left ::
                      deployments[d].certificate == certificate && deployments[d].target == g
                      && deployments[d].enabled && deployments[d].autoDeploy
        decreases left
      {
        var d :| d in left;
        left := left - {d};
        if deployments[d].certificate == certificate && deployments[d].enabled && deployments[d].autoDeploy {
          ids := ids + [deployments[d].target];
        }
      }
    }

    /** The enabled targets of a task, by position. */
    method EnabledTargets(t: Id) returns (ids: seq<Id>)
      ensures ListsEnabled(ids, links, t)
    {
      ids := [];
      var left := set k | k in links && k.task == t && links[k].enabled;
      while left != {}
        invariant left <= links.Keys && forall k | k in left :: k.task == t && links[k].enabled
        invariant ListsAllBut(ids, links, t, left)
        decreases left
      {
        FirstPosition(links, left);
        var k :| k in left && forall m | m in left :: links[k].position <= links[m].position;
        ListsOneMore(ids, links, t, left, k);
        left := left - {k};
        ids := ids + [k.target];
      }
    }

    /** The enabled links of one task, or one row without a target. */
    method RowsOfTask(t: Id) returns (rows: seq<Joined>)
      requires t in tasks
      ensures RowsOf(rows, tasks, links, t)
    {
      var ids := EnabledTargets(t);
      if ids == [] {
        return [Joined(t, tasks[t].action, tasks[t].credential, None)];
      }
      rows := [];
      for n := 0 to |ids|
        invariant |rows| == n
        invariant forall m | 0 <= m < n :: rows[m] == Joined(t, tasks[t].action, tasks[t].credential, Some(ids[m]))
      {
        rows := rows + [Joined(t, tasks[t].action, tasks[t].credential, Some(ids[n]))];
      }
      RowsOfListed(rows, ids, tasks, links, t);
    }

    /** automation_tasks LEFT JOIN automation_task_targets. */
    method JoinRows(certificate: Id) returns (rows: seq<Joined>)
      ensures IsJoin(rows, tasks, links, certificate)
    {
      rows := [];
      var left := tasks.Keys;
      while left != {}
        invariant left <= tasks.Keys && JoinsAllBut(rows, tasks, links, certificate, left)
        decreases left
      {
        var t :| t in left;
        if tasks[t].certificate == certificate && tasks[t].enabled && !tasks[t].deleted
           && tasks[t].action in {UploadSsl, DeployAlb} {
          var more := RowsOfTask(t);
          JoinsOneMore(rows, more, tasks, links, certificate, left, t);
          rows := rows + more;
        } else {
          assert !Delivers(tasks, t, certificate);
        }
        left := left - {t};
      }
    }

    /** `legacy` and `rows` are what the two queries of the transaction return. */
    method SaveCertificateVersion(m: Material, notAfter: Time, now: Time)
      returns (ok: bool, ghost legacy: seq<Id>, ghost rows: seq<Joined>)
      requires Sound(Q())
      modifies `jobs, `runs, `nextId, `certs, `versions
      ensures ok <==> m.certificate in old(certs) && m.version !in old(versions)
      ensures !ok ==> Q() == old(Q()) && certs == old(certs) && versions == old(versions)
      ensures ok ==>
                && versions == old(versions)[m.version := Version(m.certificate, notAfter)]
                && certs == OnSave(old(certs), m.certificate, m.version)
                && ListsAutoDeploys(legacy, deployments, m.certificate) && IsJoin(rows, tasks, links, m.certificate)
                && Q() == FanOut(old(Q()), m, legacy, rows, now)
    {
      legacy, rows := [], [];
      if m.certificate !in certs || m.version in versions {
        return false, legacy, rows;
      }
      versions := versions[m.version := Version(m.certificate, notAfter)];
      if !certs[m.certificate].deleted {
        certs := certs[m.certificate := certs[m.certificate].(status := Issued, current := Some(m.version))];
      }
      legacy, rows := FanOutVersion(m, now);
      return true, legacy, rows;
    }

    /** The second half of the transaction: both queries, and an insert for what they list. */
    method FanOutVersion(m: Material, now: Time) returns (ghost legacy: seq<Id>, ghost rows: seq<Joined>)
      requires Sound(Q())
      modifies `jobs, `runs, `nextId
      ensures ListsAutoDeploys(legacy, deployments, m.certificate) && IsJoin(rows, tasks, links, m.certificate)
      ensures Q() == FanOut(old(Q()), m, legacy, rows, now)
    {
      var targetIds := AutoDeployTargets(m.certificate);
      LegacyGrows(Q(), m, targetIds, now);
      QueueLegacy(m, targetIds, now);
      var joined := JoinRows(m.certificate);
      var deliveries := GroupRows(joined);
      DeliverTasks(m, deliveries, now);
      return targetIds, joined;
    }

    method DeliverTasks(m: Material, deliveries: seq<Delivery>, now: Time)
      requires Sound(Q())
      modifies `jobs, `runs, `nextId
      ensures Q() == DeliverAll(old(Q()), m, deliveries, now)
    {
      for n := 0 to |deliveries|
        invariant Q() == DeliverAll(old(Q()), m, deliveries[..n], now) && Sound(Q())
      {
        assert deliveries[..n + 1][..n] == deliveries[..n];
        DeliverGrows(Q(), m, deliveries[n], now);
        DeliverTask(m, deliveries[n], now);
      }
      assert deliveries[..|deliveries|] == deliveries;
    }

    method QueueLegacy(m: Material, legacy: seq<Id>, now: Time)
      modifies `jobs, `nextId
      ensures Q() == InsertLegacy(old(Q()), m, legacy, now)
    {
      for n := 0 to |legacy|
        invariant Q() == InsertLegacy(old(Q()), m, legacy[..n], now)
      {
        assert legacy[..n + 1][..n] == legacy[..n];
        var _ := InsertJob(LegacyJob(m, legacy[n], now));
      }
      assert legacy[..|legacy|] == legacy;
    }

    /** One task of the fan-out: the run is deleted again if every insert found its key taken. */
    method DeliverTask(m: Material, d: Delivery, now: Time)
      requires Sound(Q())
      modifies `jobs, `runs, `nextId
      ensures Q() == Deliver(old(Q()), m, d, now)
    {
      var total := 1;
      if d.action == DeployAlb {
        total := |d.targets|;
      }
      if total == 0 {
        return;
      }
      var run := nextId;
      nextId := nextId + 1;
      runs := runs[run := Run(d.task, m.certificate, Some(m.version), RunQueued, total, 0, 0, None)];
      NoChildrenYet(Q(), old(Q()), run);
      var queued := FillTask(m, d, run, now);
      if queued == 0 {
        runs := runs - {run};
        return;
      }
      runs := runs[run := runs[run].(total := queued)];
    }

    method FillTask(m: Material, d: Delivery, run: Id, now: Time) returns (queued: nat)
      requires Fresh(Q()) && Children(jobs, run) == {}
      modifies `jobs, `nextId
      ensures Q() == FillRun(old(Q()), m, d, run, now) && queued == |Children(jobs, run)|
    {
      if d.action == UploadSsl {
        InsertAddsChild(Q(), UploadJob(m, d, run, now), run);
        queued := InsertJob(UploadJob(m, d, run, now));
        return;
      }
      queued := 0;
      for n := 0 to |d.targets|
        invariant Q() == InsertDeploys(old(Q()), m, d, d.targets[..n], run, now) && Fresh(Q())
        invariant queued == |Children(jobs, run)|
      {
        assert d.targets[..n + 1][..n] == d.targets[..n];
        InsertAddsChild(Q(), DeployJob(m, d, d.targets[n], run, now), run);
        var added := InsertJob(DeployJob(m, d, d.targets[n], run, now));
        queued := queued + added;
      }
      assert d.targets[..|d.targets|] == d.targets;
    }

    /** No job and not in progress: the certificate does not exist. */
    method QueueCertificateIssue(now: Time, certificate: Id) returns (job: Option<Id>, inProgress: bool)
      modifies `jobs, `nextId, `certs
      ensures match QueueIssue(old(Q()), old(certs), now, certificate)
              case NoCertificate => job == None && !inProgress && Q() == old(Q()) && certs == old(certs)
              case IssueInProgress => job == None && inProgress && Q() == old(Q()) && certs == old(certs)
              case IssueQueued(id, q, certs') => job == Some(id) && !inProgress && Q() == q && certs == certs'
    {
      if certificate !in certs || certs[certificate].deleted {
        return None, false;
      }
      if LiveIssuances(jobs, certificate) != {} {
        return None, true;
      }
      var id := nextId;
      nextId := nextId + 1;
      jobs := jobs[id := IssueJob(certificate, Once(id), now)];
      certs := certs[certificate := certs[certificate].(status := Pending)];
      return Some(id), false;
    }

    /** `targetIds` are the task's enabled targets by position. */
    method QueueAutomationRun(now: Time, t: Id) returns (reply: RunReply, ghost targetIds: seq<Id>)
      modifies `jobs, `runs, `nextId
      ensures ListsEnabled(targetIds, links, t)
      ensures reply == ReplyOf(QueueRun(old(Q()), tasks, certs, targetIds, now, t))
      ensures Q() == match QueueRun(old(Q()), tasks, certs, targetIds, now, t)
                     case RunStarted(_, q) => q
                     case _ => old(Q())
    {
      var ids := EnabledTargets(t);
      targetIds := ids;
      if t !in tasks || !tasks[t].enabled || tasks[t].deleted {
        return SaysNoTask, ids;
      }
      var task := tasks[t];
      if LiveRuns(runs, t) != {} {
        return SaysInProgress, ids;
      }
      var version := None;
      if task.action != RenewCertificate {
        if task.certificate !in certs || certs[task.certificate].deleted || certs[task.certificate].current.None? {
          return SaysWaitingForCertificate, ids;
        }
        version := certs[task.certificate].current;
      }
      if task.action == DeployAlb && ids == [] {
        return SaysNoTargets, ids;
      }
      var r := StartManualRun(now, t, task, version, Slots(task, ids));
      return SaysStarted(r), ids;
    }

    method StartManualRun(now: Time, t: Id, task: Task, version: Option<Id>, slots: seq<Option<Id>>) returns (run: Id)
      modifies `jobs, `runs, `nextId
      ensures run == old(nextId) && Q() == ManualRun(old(Q()), t, task, version, slots, now)
    {
      run := nextId;
      nextId := nextId + 1;
      runs := runs[run := Run(t, task.certificate, version, RunQueued, |slots|, 0, 0, None)];
      assert Q() == OpenManualRun(old(Q()), t, task, version, |slots|);
      QueueManualJobs(now, t, task, slots, run);
    }

    /** INSERT of a row whose key is new by construction. */
    method AddJob(j: Job)
      modifies `jobs, `nextId
      ensures Q() == old(Q()).(jobs := old(jobs)[old(nextId) := j], nextId := old(nextId) + 1)
    {
      jobs := jobs[nextId := j];
      nextId := nextId + 1;
    }

    method QueueManualJobs(now: Time, t: Id, task: Task, slots: seq<Option<Id>>, run: Id)
      modifies `jobs, `nextId
      ensures Q() == ManualJobs(old(Q()), t, task, slots, run, now)
    {
      NoManualJobs(Q(), t, task, run, now);
      for n := 0 to |slots|
        invariant Q() == ManualJobs(old(Q()), t, task, slots[..n], run, now)
      {
        assert slots[..n + 1] == slots[..n] + [slots[n]];
        OneMoreManualJob(old(Q()), t, task, slots[..n], slots[n], run, now);
        AddJob(ManualJob(t, task, slots[n], nextId, run, now));
      }
      assert slots[..|slots|] == slots;
    }

    // ---------- the due scan ----------

    ghost function S(): Sched
      reads this
    {
      Sched(Q(), tasks, certs, versions)
    }

    /** The scan as it stands: with a task due it fails and leaves the tables as they were, and with
        none due it queues nothing. */
    method QueueDueAutomationTasks(now: Time) returns (reply: ScanReply)
      modifies `jobs, `runs, `nextId, `tasks
      ensures S() == old(S())
      ensures reply == ScanFailed <==> EligibleTasks(S(), now) != {}
      ensures reply != ScanFailed ==> reply == ScanQueued(0)
    {
      ghost var log;
      reply, log := DrainDueTasks(now, RENEWAL_ARGUMENTS);
    }

    /** Its loop, one transaction per due task, with `arguments` given to the renewal insert. With as
        many as the statement has placeholders it drains the due tasks, in the order of `log`. */
    method DrainDueTasks(now: Time, arguments: nat) returns (reply: ScanReply, ghost log: seq<Id>)
      requires arguments == RENEWAL_PLACEHOLDERS ==> Sound(Q())
      modifies `jobs, `runs, `nextId, `tasks
      ensures arguments == RENEWAL_PLACEHOLDERS ==>
                IsScan(old(S()), now, log) && S() == ScanAll(old(S()), now, log) && reply == ScanQueued(|log|)
      ensures arguments != RENEWAL_PLACEHOLDERS ==>
                S() == old(S()) && reply == if EligibleTasks(S(), now) == {} then ScanQueued(0) else ScanFailed
    {
      var queued := 0;
      log := [];
      var due := EligibleTasks(Sched(Queue(jobs, execs, runs, challenges, nextId), tasks, certs, versions), now);
      while due != {}
        invariant due == EligibleTasks(S(), now) && queued == |log|
        invariant arguments == RENEWAL_PLACEHOLDERS ==> Sound(Q()) && Served(old(S()), now, log, S())
        invariant arguments != RENEWAL_PLACEHOLDERS ==> S() == old(S()) && log == []
        decreases due
      {
        EarliestExists(S(), now);
        var t :| t in due && forall u | u in due :: tasks[t].nextRunAt <= tasks[u].nextRunAt;
        if arguments == RENEWAL_PLACEHOLDERS {
          ServeOne(old(S()), S(), now, log, t);
        }
        var ok := QueueRenewal(now, t, arguments);
        if !ok {
          return ScanFailed, log;
        }
        due := EligibleTasks(Sched(Queue(jobs, execs, runs, challenges, nextId), tasks, certs, versions), now);
        queued, log := queued + 1, log + [t];
      }
      if arguments == RENEWAL_PLACEHOLDERS {
        ServedAll(old(S()), now, log, S());
      }
      return ScanQueued(queued), log;
    }

    /** One iteration, as one transaction that is rolled back when the second insert fails. */
    method QueueRenewal(now: Time, t: Id, arguments: nat) returns (ok: bool)
      requires Eligible(S(), now, t)
      modifies `jobs, `runs, `nextId, `tasks
      ensures ok <==> arguments == RENEWAL_PLACEHOLDERS
      ensures S() == if ok then ScanOne(old(S()), now, t) else old(S())
    {
      var runs0, nextId0 := runs, nextId;
      var task := tasks[t];
      var run := nextId;
      var job := nextId + 1;
      nextId := nextId + 2;
      runs := runs[run := Run(t, task.certificate, certs[task.certificate].current, RunQueued, 1, 0, 0, None)];
      if arguments != RENEWAL_PLACEHOLDERS {
        runs, nextId := runs0, nextId0;
        return false;
      }
      jobs := jobs[job := NewJob(Renew, SchedulerScope(t), Once(job), task.certificate, None, None, Some(t), Some(run), now)];
      tasks := tasks[t := task.(nextRunAt := now + task.interval)];
      return true;
    }

    // ---------- automation tasks and their targets ----------

    ghost function A(): TaskAdmin.Admin
      reads this
    {
      TaskAdmin.Admin(certs, credentials, tasks, links, targets, deployments)
    }

    /** The insert loop; on a refused row the caller rolls back. */
    method InsertLinks(t: Id, ids: seq<Id>) returns (ok: bool)
      modifies `links
      ensures match TaskAdmin.InsertLinks(old(links), targets, t, ids)
              case None => !ok
              case Some(links') => ok && links == links'
    {
      for n := 0 to |ids|
        invariant TaskAdmin.InsertLinks(old(links), targets, t, ids[..n]) == Some(links)
      {
        assert ids[..n + 1][..n] == ids[..n];
        if !TaskAdmin.Available(targets, ids[n]) || LinkKey(t, ids[n]) in links {
          LinksStayRefused(old(links), targets, t, ids, n + 1);
          return false;
        }
        links := links[LinkKey(t, ids[n]) := Link(n, true)];
      }
      assert ids[..|ids|] == ids;
      return true;
    }

    method CreateAutomationTask(now: Time, t: Id, input: TaskAdmin.TaskInput) returns (ok: bool)
      modifies `tasks, `links
      ensures match TaskAdmin.CreateTask(old(A()), now, t, input)
              case None => !ok && A() == old(A())
              case Some(a) => ok && A() == a
    {
      var tasks0, links0 := tasks, links;
      var interval := input.interval;
      if interval == 0 {
        interval := TaskAdmin.HOUR;
      }
      if || t in tasks || input.certificate !in certs || certs[input.certificate].deleted
         || (input.credential.Some? && (input.credential.value !in credentials || !credentials[input.credential.value]))
         || !(TaskAdmin.HOUR <= interval <= TaskAdmin.WEEK) {
        return false;
      }
      tasks := tasks[t := Task(input.certificate, input.action, input.credential, interval,
                               input.enabled, false, now + interval)];
      if input.action == DeployAlb && input.targets == [] {
        tasks := tasks0;
        return false;
      }
      ok := InsertLinks(t, input.targets);
      if !ok {
        tasks, links := tasks0, links0;
      }
    }

    /** Queued work of the old configuration is cancelled in the same transaction. */
    method UpdateAutomationTask(now: Time, t: Id, input: TaskAdmin.TaskInput) returns (ok: bool)
      modifies `tasks, `links, `jobs, `runs
      ensures match TaskAdmin.UpdateTask(old(A()), t, input)
              case None => !ok && A() == old(A()) && Q() == old(Q())
              case Some(a) => ok && A() == a && Q() == CancelTask(old(Q()), now, t)
    {
      var tasks0, links0, jobs0, runs0 := tasks, links, jobs, runs;
      if || t !in tasks || tasks[t].deleted
         || input.certificate !in certs || (input.credential.Some? && input.credential.value !in credentials)
         || !(TaskAdmin.HOUR <= input.interval <= TaskAdmin.WEEK) {
        return false;
      }
      tasks := tasks[t := tasks[t].(certificate := input.certificate, action := input.action, credential := input.credential,
                                    interval := input.interval, enabled := input.enabled)];
      CancelQueued(now, t);
      links := TaskAdmin.Unlink(links, t);
      ok := InsertLinks(t, input.targets);
      if !ok {
        tasks, links, jobs, runs := tasks0, links0, jobs0, runs0;
      }
    }

    method CancelQueued(now: Time, t: Id)
      modifies `jobs, `runs
      ensures Q() == CancelTask(old(Q()), now, t)
    {
      var cancelled := set i | i in jobs && jobs[i].task == Some(t) && jobs[i].status == Queued;
      jobs := map i | i in jobs ::
        if i in cancelled then jobs[i].(status := Cancelled, cancelRequested := true) else jobs[i];
      runs := map r | r in runs ::
        if runs[r].task == t && runs[r].status == RunQueued
        then runs[r].(status := RunCancelled, finished := Some(now)) else runs[r];
      assert jobs == CancelTask(old(Q()), now, t).jobs && runs == CancelTask(old(Q()), now, t).runs;
    }

    /** Every target the task links, in whatever order. */
    method TargetsOfTask(t: Id) returns (ids: seq<Id>)
      ensures TaskAdmin.ListsTargets(links, t, ids)
    {
      ids := [];
      var left := links.Keys;
      while left != {}
        invariant left <= links.Keys
        invariant forall g: Id :: g in ids <==> LinkKey(t, g) in links && LinkKey(t, g) !in left
        decreases left
      {
        var k :| k in left;
        left := left - {k};
        if k.task == t {
          assert k == LinkKey(t, k.target);
          ids := ids + [k.target];
        }
      }
    }

    /** `ids` are the targets the first query lists. */
    method DeleteAutomationTask(now: Time, t: Id) returns (ok: bool, ghost ids: seq<Id>)
      modifies `tasks, `links, `targets, `jobs, `runs
      ensures TaskAdmin.ListsTargets(old(links), t, ids)
      ensures match TaskAdmin.DeleteTask(old(A()), t, ids)
              case None => !ok && A() == old(A()) && Q() == old(Q())
              case Some(a) => ok && A() == a && Q() == CancelTask(old(Q()), now, t)
    {
      var targetIds := TargetsOfTask(t);
      ids := targetIds;
      if t !in tasks || tasks[t].deleted {
        return false, targetIds;
      }
      tasks := tasks[t := tasks[t].(deleted := true, enabled := false)];
      CancelQueued(now, t);
      links := TaskAdmin.Unlink(links, t);
      ReleaseTargets(targetIds);
      return true, targetIds;
    }

    method ReleaseTargets(ids: seq<Id>)
      modifies `targets
      ensures A() == TaskAdmin.ReleaseAll(old(A()), ids)
    {
      for n := 0 to |ids|
        invariant A() == TaskAdmin.ReleaseAll(old(A()), ids[..n])
      {
        assert ids[..n + 1][..n] == ids[..n];
        ReleaseTarget(ids[n]);
      }
      assert ids[..|ids|] == ids;
    }

    method ReleaseTarget(g: Id)
      modifies `targets
      ensures A() == TaskAdmin.Release(old(A()), g)
    {
      if g in targets && !targets[g].deleted {
        if !(exists k | k in links :: k.target == g && k.task in tasks && !tasks[k.task].deleted)
           && !(exists d | d in deployments :: deployments[d].target == g && deployments[d].enabled) {
          targets := targets[g := Target(false, true)];
        }
      }
    }
  }

  lemma NoManualJobs(q: Queue, t: Id, task: Task, run: Id, now: Time)
    ensures ManualJobs(q, t, task, [], run, now) == q
  {
    assert ManualJobs(q, t, task, [], run, now).jobs == q.jobs;
  }

  lemma OneMoreManualJob(q: Queue, t: Id, task: Task, slots: seq<Option<Id>>, slot: Option<Id>, run: Id, now: Time)
    ensures var before := ManualJobs(q, t, task, slots, run, now);
            ManualJobs(q, t, task, slots + [slot], run, now)
            == before.(jobs := before.jobs[before.nextId := ManualJob(t, task, slot, before.nextId, run, now)],
                       nextId := before.nextId + 1)
  {
    var before, after := ManualJobs(q, t, task, slots, run, now), ManualJobs(q, t, task, slots + [slot], run, now);
    var jobs := before.jobs[before.nextId := ManualJob(t, task, slot, before.nextId, run, now)];
    forall i
      ensures i in jobs <==> i in after.jobs
      ensures i in jobs ==> jobs[i] == after.jobs[i]
    {
      ManualJobAt(q, t, task, slots, run, now, i);
      ManualJobAt(q, t, task, slots + [slot], run, now, i);
    }
    assert after.jobs == jobs;
  }

  // ---------- the draining loop ----------

  /** `s'` is what serving `log` in order makes of `s`, each task being the earliest at its turn. */
  ghost predicate Served(s: Sched, now: Time, log: seq<Id>, s': Sched)
    decreases |log|
  {
    if log == [] then s' == s
    else Earliest(s, now, log[0]) && Served(ScanOne(s, now, log[0]), now, log[1..], s')
  }

  lemma {:induction false} EarliestExists(s: Sched, now: Time)
    requires EligibleTasks(s, now) != {}
    ensures exists t :: t in EligibleTasks(s, now) && Earliest(s, now, t)
  {
    EarliestAmong(s, EligibleTasks(s, now));
  }

  lemma {:induction false} EarliestAmong(s: Sched, ids: set<Id>)
    requires ids != {} && forall t | t in ids :: t in s.tasks
    ensures exists t :: t in ids && forall u | u in ids :: s.tasks[t].nextRunAt <= s.tasks[u].nextRunAt
    decreases ids
  {
    var x :| x in ids;
    if ids - {x} != {} {
      EarliestAmong(s, ids - {x});
      var t :| t in ids - {x} && forall u | u in ids - {x} :: s.tasks[t].nextRunAt <= s.tasks[u].nextRunAt;
      var least := if s.tasks[t].nextRunAt <= s.tasks[x].nextRunAt then t else x;
      assert forall u | u in ids :: u == x || u in ids - {x};
      assert forall u | u in ids :: s.tasks[least].nextRunAt <= s.tasks[u].nextRunAt;
    } else {
      assert ids == {x};
    }
  }

  lemma {:induction false} ServedSnoc(s: Sched, s': Sched, now: Time, log: seq<Id>, t: Id)
    requires Served(s, now, log, s') && Earliest(s', now, t)
    ensures Served(s, now, log + [t], ScanOne(s', now, t))
    decreases |log|
  {
    if log == [] {
      assert (log + [t])[1..] == [];
    } else {
      assert (log + [t])[0] == log[0] && (log + [t])[1..] == log[1..] + [t];
      ServedSnoc(ScanOne(s, now, log[0]), s', now, log[1..], t);
    }
  }

  lemma ServeOne(s: Sched, s': Sched, now: Time, log: seq<Id>, t: Id)
    requires Served(s, now, log, s') && Sound(s'.q) && Earliest(s', now, t)
    ensures Served(s, now, log + [t], ScanOne(s', now, t)) && Sound(ScanOne(s', now, t).q)
    ensures EligibleTasks(ScanOne(s', now, t), now) < EligibleTasks(s', now)
  {
    ServedSnoc(s, s', now, log, t);
    ScanGrows(s', now, t);
    forall u | u in s'.tasks {
      ScanRetires(s', now, t, u);
    }
    assert t in EligibleTasks(s', now) && t !in EligibleTasks(ScanOne(s', now, t), now);
  }

  lemma {:induction false} ServedAll(s: Sched, now: Time, log: seq<Id>, s': Sched)
    requires Served(s, now, log, s') && EligibleTasks(s', now) == {}
    ensures IsScan(s, now, log) && ScanAll(s, now, log) == s'
    decreases |log|
  {
    if log != [] {
      ServedAll(ScanOne(s, now, log[0]), now, log[1..], s');
    }
  }

  lemma {:induction false} LinksStayRefused(links: map<LinkKey, Link>, targets: map<Id, Target>, t: Id, ids: seq<Id>, n: nat)
    requires n <= |ids| && TaskAdmin.InsertLinks(links, targets, t, ids[..n]) == None
    ensures TaskAdmin.InsertLinks(links, targets, t, ids) == None
    decreases |ids|
  {
    if n < |ids| {
      assert ids[..|ids| - 1][..n] == ids[..n];
      LinksStayRefused(links, targets, t, ids[..|ids| - 1], n);
    } else {
      assert ids[..n] == ids;
    }
  }

  lemma NoChildrenYet(q': Queue, q: Queue, run: Id)
    requires Sound(q) && run == q.nextId && q'.jobs == q.jobs
    ensures Children(q'.jobs, run) == {}
  {
  }

  lemma InsertAddsChild(q: Queue, j: Job, run: Id)
    requires Fresh(q) && j.run == Some(run)
    ensures Fresh(Insert(q, j))
    ensures |Children(Insert(q, j).jobs, run)| == |Children(q.jobs, run)| + if HasKey(q.jobs, j.scope, j.key) then 0 else 1
  {
    if !HasKey(q.jobs, j.scope, j.key) {
      assert Children(Insert(q, j).jobs, run) == Children(q.jobs, run) + {q.nextId};
    }
  }

  /** The expired rows, each once. */
  method ExpiredRows(jobs: map<Id, Job>, now: Time) returns (ids: seq<Id>)
    ensures ListsAllExpired(jobs, now, ids)
  {
    ids := [];
    var left := jobs.Keys;
    while left != {}
      invariant left <= jobs.Keys
      invariant forall i :: i in ids <==> i in jobs && i !in left && Expired(jobs[i], now)
      invariant forall a, b | 0 <= a < b < |ids| :: ids[a] != ids[b]
      decreases left
    {
      var i :| i in left;
      left := left - {i};
      if Expired(jobs[i], now) {
        ids := ids + [i];
      }
    }
  }
}
