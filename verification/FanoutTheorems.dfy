/** Saving a version delivers it exactly where the catalogue says. */
module FanoutTheorems {
  import opened Rows
  import opened Catalog
  import opened Engine
  import opened Fanout

  // ---------- what the two queries return ----------

  /** A live, enabled upload or deploy task of the certificate. */
  ghost predicate Delivers(tasks: map<Id, Task>, t: Id, certificate: Id) {
    && t in tasks && tasks[t].certificate == certificate && tasks[t].enabled && !tasks[t].deleted
    && tasks[t].action in {UploadSsl, DeployAlb}
  }

  ghost predicate Linked(links: map<LinkKey, Link>, t: Id, target: Id) {
    LinkKey(t, target) in links && links[LinkKey(t, target)].enabled
  }

  ghost predicate RowOk(row: Joined, tasks: map<Id, Task>, links: map<LinkKey, Link>, certificate: Id) {
    && Delivers(tasks, row.task, certificate)
    && row.action == tasks[row.task].action && row.credential == tasks[row.task].credential
    && (row.target.Some? ==> Linked(links, row.task, row.target.value))
  }

  /** `rows` is automation_tasks LEFT JOIN their enabled targets, in any order and with any repeats. */
  ghost predicate IsJoin(rows: seq<Joined>, tasks: map<Id, Task>, links: map<LinkKey, Link>, certificate: Id) {
    && (forall n | 0 <= n < |rows| :: RowOk(rows[n], tasks, links, certificate))
    && (forall t | Delivers(tasks, t, certificate) :: exists n :: 0 <= n < |rows| && rows[n].task == t)
    && (forall t: Id, g: Id | Delivers(tasks, t, certificate) && Linked(links, t, g) ::
          exists n :: 0 <= n < |rows| && rows[n].task == t && rows[n].target == Some(g))
  }

  ghost predicate AutoDeploys(deployments: map<Id, Deployment>, certificate: Id, target: Id) {
    exists d | d in deployments ::
      deployments[d].certificate == certificate && deployments[d].target == target
      && deployments[d].enabled && deployments[d].autoDeploy
  }

  ghost predicate ListsAutoDeploys(targets: seq<Id>, deployments: map<Id, Deployment>, certificate: Id) {
    forall g :: g in targets <==> AutoDeploys(deployments, certificate, g)
  }

  // ---------- what the catalogue asks for ----------

  ghost predicate TaskAsks(m: Material, tasks: map<Id, Task>, links: map<LinkKey, Link>, k: (Scope, Key)) {
    && k.0.TaskScope? && Delivers(tasks, k.0.id, m.certificate)
    && (if tasks[k.0.id].action == UploadSsl then k.1 == ForVersion(m.version)
        else k.1.ForVersionAndTarget? && k.1.version == m.version && Linked(links, k.0.id, k.1.target))
  }

  ghost predicate DeploymentAsks(m: Material, deployments: map<Id, Deployment>, k: (Scope, Key)) {
    k.0.TargetScope? && k.1 == ForVersion(m.version) && AutoDeploys(deployments, m.certificate, k.0.id)
  }

  /** The job the catalogue asks for under an idempotency pair. */
  ghost function AskedJob(m: Material, tasks: map<Id, Task>, k: (Scope, Key), run: Option<Id>, now: Time): Job
    requires k.0.TaskScope? ==> k.0.id in tasks
  {
    if k.0.TaskScope? then
      if k.1.ForVersionAndTarget? then
        NewJob(Deploy, k.0, k.1, m.certificate, Some(k.1.target), None, Some(k.0.id), run, now)
      else NewJob(Upload, k.0, k.1, m.certificate, None, tasks[k.0.id].credential, Some(k.0.id), run, now)
    else NewJob(Deploy, k.0, k.1, m.certificate, Some(k.0.id), None, None, None, now)
  }

  // ---------- the grouped rows ask for the same ----------

  lemma GroupFollowsTask(rows: seq<Joined>, tasks: map<Id, Task>, links: map<LinkKey, Link>, certificate: Id, n: nat)
    requires IsJoin(rows, tasks, links, certificate) && n < |TaskIds(rows)|
    ensures var t := TaskIds(rows)[n];
            && Delivers(tasks, t, certificate)
            && GroupBy(rows)[n].task == t && GroupBy(rows)[n].action == tasks[t].action
            && GroupBy(rows)[n].credential == tasks[t].credential
            && forall g :: g in GroupBy(rows)[n].targets <==> Linked(links, t, g)
  {
    var t := TaskIds(rows)[n];
    FirstRowIsARow(rows, t);
    TargetsOfAreTheTargets(rows, t);
  }

  lemma GroupsAsk(m: Material, rows: seq<Joined>, tasks: map<Id, Task>, links: map<LinkKey, Link>, k: (Scope, Key))
    requires IsJoin(rows, tasks, links, m.certificate)
    ensures k in AllKeys(m, GroupBy(rows)) <==> TaskAsks(m, tasks, links, k)
  {
    AllKeysAre(m, GroupBy(rows));
    if k in AllKeys(m, GroupBy(rows)) {
      var n :| 0 <= n < |GroupBy(rows)| && k in DeliveryKeys(m, GroupBy(rows)[n]);
      GroupFollowsTask(rows, tasks, links, m.certificate, n);
    }
    if TaskAsks(m, tasks, links, k) {
      TaskIdsAreTheTasks(rows);
      var n :| 0 <= n < |TaskIds(rows)| && TaskIds(rows)[n] == k.0.id;
      GroupFollowsTask(rows, tasks, links, m.certificate, n);
      assert k in DeliveryKeys(m, GroupBy(rows)[n]);
    }
  }

  lemma JoinActions(rows: seq<Joined>, tasks: map<Id, Task>, links: map<LinkKey, Link>, certificate: Id)
    requires IsJoin(rows, tasks, links, certificate)
    ensures forall n | 0 <= n < |rows| :: rows[n].action in {UploadSsl, DeployAlb}
  {
    forall n | 0 <= n < |rows|
      ensures rows[n].action in {UploadSsl, DeployAlb}
    {
      assert RowOk(rows[n], tasks, links, certificate);
    }
  }

  // ---------- exactness ----------

  /** Exactly one new job per enabled target of each enabled deploy task, one per enabled upload
      task, one per automatic deployment, and no other. */
  lemma FansOutExactly(q: Queue, m: Material, legacy: seq<Id>, rows: seq<Joined>, now: Time, versions: set<Id>,
                       tasks: map<Id, Task>, links: map<LinkKey, Link>, deployments: map<Id, Deployment>, k: (Scope, Key))
    requires Sound(q) && KeysOk(q.jobs, versions) && m.version !in versions
    requires IsJoin(rows, tasks, links, m.certificate) && ListsAutoDeploys(legacy, deployments, m.certificate)
    ensures |NewWith(q, FanOut(q, m, legacy, rows, now), k)|
            == if TaskAsks(m, tasks, links, k) || DeploymentAsks(m, deployments, k) then 1 else 0
  {
    JoinActions(rows, tasks, links, m.certificate);
    FanOutIsExact(q, m, legacy, rows, now, versions, k);
    GroupsAsk(m, rows, tasks, links, k);
    assert k in LegacyKeys(m, legacy) <==> DeploymentAsks(m, deployments, k);
  }

  /** The same, task by task and target by target: an upload for every live, enabled upload task of the
      certificate, a deployment for every enabled link of a live, enabled deploy task, and one for every
      target with an enabled automatic deployment. */
  lemma DeliversWhere(q: Queue, m: Material, legacy: seq<Id>, rows: seq<Joined>, now: Time, versions: set<Id>,
                      tasks: map<Id, Task>, links: map<LinkKey, Link>, deployments: map<Id, Deployment>, t: Id, g: Id)
    requires Sound(q) && KeysOk(q.jobs, versions) && m.version !in versions
    requires IsJoin(rows, tasks, links, m.certificate) && ListsAutoDeploys(legacy, deployments, m.certificate)
    ensures var q' := FanOut(q, m, legacy, rows, now);
            var live := t in tasks && tasks[t].certificate == m.certificate && tasks[t].enabled && !tasks[t].deleted;
            && |NewWith(q, q', (TaskScope(t), ForVersion(m.version)))|
               == (if live && tasks[t].action == UploadSsl then 1 else 0)
            && |NewWith(q, q', (TaskScope(t), ForVersionAndTarget(m.version, g)))|
               == (if live && tasks[t].action == DeployAlb && LinkKey(t, g) in links && links[LinkKey(t, g)].enabled then 1 else 0)
            && |NewWith(q, q', (TargetScope(g), ForVersion(m.version)))|
               == (if exists d | d in deployments :: deployments[d].certificate == m.certificate && deployments[d].target == g
                                                    && deployments[d].enabled && deployments[d].autoDeploy then 1 else 0)
  {
    FansOutExactly(q, m, legacy, rows, now, versions, tasks, links, deployments, (TaskScope(t), ForVersion(m.version)));
    FansOutExactly(q, m, legacy, rows, now, versions, tasks, links, deployments, (TaskScope(t), ForVersionAndTarget(m.version, g)));
    FansOutExactly(q, m, legacy, rows, now, versions, tasks, links, deployments, (TargetScope(g), ForVersion(m.version)));
  }

  /** And each new job carries what the catalogue says, under a run of its own task. */
  lemma FansOutFaithfully(q: Queue, m: Material, legacy: seq<Id>, rows: seq<Joined>, now: Time,
                          tasks: map<Id, Task>, links: map<LinkKey, Link>, i: Id)
    requires Sound(q) && IsJoin(rows, tasks, links, m.certificate)
    requires var q' := FanOut(q, m, legacy, rows, now); i in q'.jobs && i !in q.jobs
    ensures var q' := FanOut(q, m, legacy, rows, now);
            var j := q'.jobs[i];
            && (j.scope.TaskScope? ==> j.scope.id in tasks && j.run.Some?
                                       && j.run.value in q'.runs && q'.runs[j.run.value].task == j.scope.id
                                       && q'.runs[j.run.value].certificate == m.certificate
                                       && q'.runs[j.run.value].version == Some(m.version))
            && j == AskedJob(m, tasks, (j.scope, j.key), j.run, now)
  {
    var first, ds := InsertLegacy(q, m, legacy, now), GroupBy(rows);
    var j := FanOut(q, m, legacy, rows, now).jobs[i];
    LegacyGrows(q, m, legacy, now);
    DeliverAllGrows(first, m, ds, now);
    if i in first.jobs {
      LegacyJobs(q, m, legacy, now, i);
    } else {
      var n := DeliverAllExpected(first, m, ds, now, i);
      GroupFollowsTask(rows, tasks, links, m.certificate, n);
      assert NewJobOk(first, FanOut(q, m, legacy, rows, now), now, i);
      DeliverAllRuns(first, m, ds, now, j.run.value);
    }
  }

  lemma {:induction false} LegacyJobs(q: Queue, m: Material, targets: seq<Id>, now: Time, i: Id)
    requires Sound(q) && i in InsertLegacy(q, m, targets, now).jobs && i !in q.jobs
    ensures var j := InsertLegacy(q, m, targets, now).jobs[i]; j.scope.TargetScope? && j == LegacyJob(m, j.scope.id, now)
  {
    var before := InsertLegacy(q, m, targets[..|targets| - 1], now);
    LegacyGrows(q, m, targets[..|targets| - 1], now);
    if i in before.jobs {
      LegacyJobs(q, m, targets[..|targets| - 1], now, i);
    }
  }
}
