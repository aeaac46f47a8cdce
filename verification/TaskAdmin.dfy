/** Creating, changing and deleting automation tasks, and the targets they hold on to. */
module TaskAdmin {
  import opened Rows
  import opened Catalog

  /** `credentials` maps a known cloud credential to whether it is active and not deleted. */
  datatype Admin = Admin(
    certs: map<Id, Cert>, credentials: map<Id, bool>, tasks: map<Id, Task>, links: map<LinkKey, Link>,
    targets: map<Id, Target>, deployments: map<Id, Deployment>)

  datatype TaskInput = TaskInput(
    certificate: Id, action: Action, credential: Option<Id>, interval: Time, enabled: bool, targets: seq<Id>)

  const HOUR: Time := 3600
  const WEEK: Time := 168 * HOUR

  // ---------- links ----------

  predicate Available(targets: map<Id, Target>, g: Id) {
    g in targets && targets[g].active && !targets[g].deleted
  }

  /** The insert loop: an unavailable target or a repeated key rolls the transaction back. */
  function InsertLinks(links: map<LinkKey, Link>, targets: map<Id, Target>, t: Id, ids: seq<Id>): Option<map<LinkKey, Link>>
  {
    if ids == [] then Some(links)
    else
      var n := |ids| - 1;
      match InsertLinks(links, targets, t, ids[..n])
      case None => None
      case Some(done) =>
        if Available(targets, ids[n]) && LinkKey(t, ids[n]) !in done
        then Some(done[LinkKey(t, ids[n]) := Link(n, true)])
        else None
  }

  function Unlink(links: map<LinkKey, Link>, t: Id): map<LinkKey, Link> {
    map k | k in links && k.task != t :: links[k]
  }

  /** `links'` is `links` plus exactly the links of `t` to `ids`, in their positions. */
  ghost predicate LinkedTo(links: map<LinkKey, Link>, links': map<LinkKey, Link>, t: Id, ids: seq<Id>) {
    && (forall n | 0 <= n < |ids| :: LinkKey(t, ids[n]) in links' && links'[LinkKey(t, ids[n])] == Link(n, true))
    && (forall k | k in links' && k.task == t :: k.target in ids)
    && (forall k: LinkKey | k.task != t :: (k in links' <==> k in links) && (k in links ==> links'[k] == links[k]))
  }

  ghost predicate Distinct(ids: seq<Id>) {
    forall m, n | 0 <= m < n < |ids| :: ids[m] != ids[n]
  }

  ghost predicate AllAvailable(targets: map<Id, Target>, ids: seq<Id>) {
    forall n | 0 <= n < |ids| :: Available(targets, ids[n])
  }

  lemma OneMoreLink(links: map<LinkKey, Link>, done: map<LinkKey, Link>, t: Id, ids: seq<Id>, g: Id)
    requires LinkedTo(links, done, t, ids) && g !in ids
    ensures LinkedTo(links, done[LinkKey(t, g) := Link(|ids|, true)], t, ids + [g])
  {
  }

  /** The loop succeeds exactly on distinct available targets, and then the links are those. */
  lemma {:induction false} LinksInserted(links: map<LinkKey, Link>, targets: map<Id, Target>, t: Id, ids: seq<Id>)
    requires forall k | k in links :: k.task != t
    ensures InsertLinks(links, targets, t, ids).Some? <==> AllAvailable(targets, ids) && Distinct(ids)
    ensures InsertLinks(links, targets, t, ids).Some? ==> LinkedTo(links, InsertLinks(links, targets, t, ids).value, t, ids)
  {
    if ids != [] {
      var rest, g := ids[..|ids| - 1], ids[|ids| - 1];
      LinksInserted(links, targets, t, rest);
      assert ids == rest + [g];
      if InsertLinks(links, targets, t, rest).Some? {
        var done := InsertLinks(links, targets, t, rest).value;
        assert LinkKey(t, g) in done <==> g in rest;
        if g !in rest {
          OneMoreLink(links, done, t, rest, g);
        }
      } else {
        assert !AllAvailable(targets, rest) || !Distinct(rest);
      }
    }
  }

  // ---------- transactions; None is a rolled-back one ----------

  /** An interval of zero means one hour. */
  function IntervalOf(input: TaskInput): Time {
    if input.interval == 0 then HOUR else input.interval
  }

  function CreateTask(a: Admin, now: Time, t: Id, input: TaskInput): Option<Admin> {
    if || t in a.tasks
       || input.certificate !in a.certs || a.certs[input.certificate].deleted
       || (input.credential.Some? && (input.credential.value !in a.credentials || !a.credentials[input.credential.value]))
       || !(HOUR <= IntervalOf(input) <= WEEK)
       || (input.action == DeployAlb && input.targets == [])
    then None
    else
      match InsertLinks(a.links, a.targets, t, input.targets)
      case None => None
      case Some(links) =>
        Some(a.(tasks := a.tasks[t := Task(input.certificate, input.action, input.credential, IntervalOf(input),
                                           input.enabled, false, now + IntervalOf(input))],
                links := links))
  }

  /** The row checks here are foreign keys only: the certificate may be deleted, the credential
      inactive, and a deploy task may end up without targets. */
  function UpdateTask(a: Admin, t: Id, input: TaskInput): Option<Admin> {
    if || t !in a.tasks || a.tasks[t].deleted
       || input.certificate !in a.certs || (input.credential.Some? && input.credential.value !in a.credentials)
       || !(HOUR <= input.interval <= WEEK)
    then None
    else
      match InsertLinks(Unlink(a.links, t), a.targets, t, input.targets)
      case None => None
      case Some(links) =>
        Some(a.(tasks := a.tasks[t := a.tasks[t].(certificate := input.certificate, action := input.action,
                                                  credential := input.credential, interval := input.interval,
                                                  enabled := input.enabled)],
                links := links))
  }

  ghost predicate TaskHolds(tasks: map<Id, Task>, links: map<LinkKey, Link>, g: Id) {
    exists k | k in links :: k.target == g && k.task in tasks && !tasks[k.task].deleted
  }

  ghost predicate DeploymentHolds(deployments: map<Id, Deployment>, g: Id) {
    exists d | d in deployments :: deployments[d].target == g && deployments[d].enabled
  }

  /** One statement of the cleanup loop. */
  ghost function Release(a: Admin, g: Id): Admin {
    if g in a.targets && !a.targets[g].deleted && !TaskHolds(a.tasks, a.links, g) && !DeploymentHolds(a.deployments, g)
    then a.(targets := a.targets[g := Target(false, true)]) else a
  }

  ghost function ReleaseAll(a: Admin, ids: seq<Id>): Admin {
    if ids == [] then a else Release(ReleaseAll(a, ids[..|ids| - 1]), ids[|ids| - 1])
  }

  /** `ids` are the targets linked to the task, in whatever order the query lists them. */
  ghost predicate ListsTargets(links: map<LinkKey, Link>, t: Id, ids: seq<Id>) {
    forall g :: g in ids <==> LinkKey(t, g) in links
  }

  ghost function DeleteTask(a: Admin, t: Id, ids: seq<Id>): Option<Admin> {
    if t !in a.tasks || a.tasks[t].deleted then None
    else Some(ReleaseAll(a.(tasks := a.tasks[t := a.tasks[t].(deleted := true, enabled := false)], links := Unlink(a.links, t)), ids))
  }

  function CreateTarget(a: Admin, g: Id, credential: Id): Option<Admin> {
    if g in a.targets || credential !in a.credentials || !a.credentials[credential] then None
    else Some(a.(targets := a.targets[g := Target(true, false)]))
  }

  /** The in-use test looks at enabled links of any task, deleted or not. */
  ghost function DeleteTarget(a: Admin, g: Id): Option<Admin> {
    if || (exists k | k in a.links :: k.target == g && a.links[k].enabled) || DeploymentHolds(a.deployments, g)
       || g !in a.targets || a.targets[g].deleted
    then None
    else Some(a.(targets := a.targets[g := Target(false, true)]))
  }

  /** UNIQUE (certificate_id, deployment_target_id). */
  ghost function CreateDeployment(a: Admin, d: Id, certificate: Id, g: Id, autoDeploy: bool): Option<Admin> {
    if || d in a.deployments || certificate !in a.certs || a.certs[certificate].deleted || !Available(a.targets, g)
       || (exists e | e in a.deployments :: a.deployments[e].certificate == certificate && a.deployments[e].target == g)
    then None
    else Some(a.(deployments := a.deployments[d := Deployment(certificate, g, true, autoDeploy)]))
  }

  ghost function DeleteCertificate(a: Admin, c: Id): Option<Admin> {
    if || (exists t | t in a.tasks :: a.tasks[t].certificate == c && !a.tasks[t].deleted)
       || (exists d | d in a.deployments :: a.deployments[d].certificate == c && a.deployments[d].enabled)
       || c !in a.certs || a.certs[c].deleted
    then None
    else Some(a.(certs := a.certs[c := a.certs[c].(deleted := true)]))
  }

  // ---------- whole histories ----------

  datatype Change =
    | TaskCreated(now: Time, t: Id, input: TaskInput)
    | TaskUpdated(t: Id, input: TaskInput)
    | TaskDeleted(t: Id, ids: seq<Id>)
    | TargetCreated(g: Id, credential: Id)
    | TargetDeleted(g: Id)
    | DeploymentCreated(d: Id, certificate: Id, g: Id, autoDeploy: bool)
    | CertificateDeleted(c: Id)

  ghost predicate Listed(a: Admin, c: Change) {
    c.TaskDeleted? ==> ListsTargets(a.links, c.t, c.ids)
  }

  ghost function Try(a: Admin, c: Change): Option<Admin> {
    match c
    case TaskCreated(now, t, input) => CreateTask(a, now, t, input)
    case TaskUpdated(t, input) => UpdateTask(a, t, input)
    case TaskDeleted(t, ids) => DeleteTask(a, t, ids)
    case TargetCreated(g, credential) => CreateTarget(a, g, credential)
    case TargetDeleted(g) => DeleteTarget(a, g)
    case DeploymentCreated(d, certificate, g, autoDeploy) => CreateDeployment(a, d, certificate, g, autoDeploy)
    case CertificateDeleted(certificate) => DeleteCertificate(a, certificate)
  }

  /** A failed transaction leaves no trace. */
  ghost function Apply(a: Admin, c: Change): Admin {
    match Try(a, c) case None => a case Some(a') => a'
  }

  ghost predicate ValidChanges(a: Admin, changes: seq<Change>)
    decreases |changes|
  {
    changes == [] || (Listed(a, changes[0]) && ValidChanges(Apply(a, changes[0]), changes[1..]))
  }

  ghost function AfterAll(a: Admin, changes: seq<Change>): Admin
    decreases |changes|
  {
    if changes == [] then a else AfterAll(Apply(a, changes[0]), changes[1..])
  }

  /** Links are enabled, belong to live tasks and lead to available targets. */
  ghost predicate LinksOk(tasks: map<Id, Task>, links: map<LinkKey, Link>, targets: map<Id, Target>) {
    forall k | k in links :: links[k].enabled && k.task in tasks && !tasks[k.task].deleted && Available(targets, k.target)
  }

  /** A target is available until it is deleted; an enabled deployment leads to an available one. */
  ghost predicate TargetsOk(targets: map<Id, Target>, deployments: map<Id, Deployment>) {
    && (forall g | g in targets :: targets[g].active <==> !targets[g].deleted)
    && (forall d | d in deployments && deployments[d].enabled :: Available(targets, deployments[d].target))
  }

  ghost predicate AdminOk(a: Admin) {
    LinksOk(a.tasks, a.links, a.targets) && TargetsOk(a.targets, a.deployments)
  }

  // ---------- cleanup ----------

  /** The cleanup loop deletes exactly the listed targets nothing holds any more. */
  lemma {:induction false} ReleasedExactly(a: Admin, ids: seq<Id>)
    ensures var a' := ReleaseAll(a, ids);
            && a' == a.(targets := a'.targets) && a'.targets.Keys == a.targets.Keys
            && forall g | g in a.targets ::
                 a'.targets[g] == if g in ids && !a.targets[g].deleted
                                     && !TaskHolds(a.tasks, a.links, g) && !DeploymentHolds(a.deployments, g)
                                  then Target(false, true) else a.targets[g]
  {
    if ids != [] {
      ReleasedExactly(a, ids[..|ids| - 1]);
      assert ids == ids[..|ids| - 1] + [ids[|ids| - 1]];
    }
  }

  /** After a task is deleted, each of its former targets is live if and only if another live
      task or an enabled deployment holds it; other targets are untouched. */
  lemma FormerTargets(a: Admin, t: Id, ids: seq<Id>, g: Id)
    requires AdminOk(a) && ListsTargets(a.links, t, ids) && DeleteTask(a, t, ids).Some? && g in a.targets
    ensures var a' := DeleteTask(a, t, ids).value;
            && g in a'.targets
            && (LinkKey(t, g) in a.links ==>
                  (!a'.targets[g].deleted <==>
                     || (exists u :: u != t && LinkKey(u, g) in a.links && !a.tasks[u].deleted)
                     || (exists d | d in a.deployments :: a.deployments[d].target == g && a.deployments[d].enabled)))
            && (LinkKey(t, g) !in a.links ==> a'.targets[g] == a.targets[g])
  {
    var b := a.(tasks := a.tasks[t := a.tasks[t].(deleted := true, enabled := false)], links := Unlink(a.links, t));
    ReleasedExactly(b, ids);
    if exists u: Id :: u != t && LinkKey(u, g) in a.links {
      var u: Id :| u != t && LinkKey(u, g) in a.links;
      assert LinkKey(u, g) in b.links;
    }
    if TaskHolds(b.tasks, b.links, g) {
      var k :| k in b.links && k.target == g && k.task in b.tasks && !b.tasks[k.task].deleted;
      assert k == LinkKey(k.task, g);
    }
  }

  // ---------- reference safety over whole histories ----------

  lemma CreateKeeps(a: Admin, now: Time, t: Id, input: TaskInput)
    requires AdminOk(a) && CreateTask(a, now, t, input).Some?
    ensures AdminOk(CreateTask(a, now, t, input).value)
  {
    assert forall k | k in a.links :: k.task in a.tasks && k.task != t;
    LinksInserted(a.links, a.targets, t, input.targets);
  }

  lemma UpdateKeeps(a: Admin, t: Id, input: TaskInput)
    requires AdminOk(a) && UpdateTask(a, t, input).Some?
    ensures AdminOk(UpdateTask(a, t, input).value)
  {
    LinksInserted(Unlink(a.links, t), a.targets, t, input.targets);
  }

  /** An update replaces the task's links by the given list, or changes nothing at all. */
  lemma UpdateReplacesLinks(a: Admin, t: Id, input: TaskInput, g: Id)
    ensures UpdateTask(a, t, input).Some? ==>
              var a' := UpdateTask(a, t, input).value;
              && (LinkKey(t, g) in a'.links <==> g in input.targets)
              && (forall u: Id | u != t :: LinkKey(u, g) in a'.links <==> LinkKey(u, g) in a.links)
    ensures (exists n :: 0 <= n < |input.targets| && !Available(a.targets, input.targets[n])) ==>
              Apply(a, TaskUpdated(t, input)) == a
    ensures (exists m, n :: 0 <= m < n < |input.targets| && input.targets[m] == input.targets[n]) ==>
              Apply(a, TaskUpdated(t, input)) == a
  {
    LinksInserted(Unlink(a.links, t), a.targets, t, input.targets);
    if UpdateTask(a, t, input).Some? && g in input.targets {
      var n :| 0 <= n < |input.targets| && input.targets[n] == g;
    }
    if UpdateTask(a, t, input).Some? {
      var links' := UpdateTask(a, t, input).value.links;
      forall u: Id | u != t
        ensures LinkKey(u, g) in links' <==> LinkKey(u, g) in a.links
      {
        assert LinkKey(u, g) in links' <==> LinkKey(u, g) in Unlink(a.links, t);
      }
    }
  }

  lemma DeleteKeeps(a: Admin, t: Id, ids: seq<Id>)
    requires AdminOk(a) && DeleteTask(a, t, ids).Some?
    ensures AdminOk(DeleteTask(a, t, ids).value)
  {
    var b := a.(tasks := a.tasks[t := a.tasks[t].(deleted := true, enabled := false)], links := Unlink(a.links, t));
    var a' := DeleteTask(a, t, ids).value;
    ReleasedExactly(b, ids);
    forall k | k in b.links
      ensures Available(a'.targets, k.target)
    {
      assert TaskHolds(b.tasks, b.links, k.target);
    }
    forall d | d in a.deployments && a.deployments[d].enabled
      ensures Available(a'.targets, a.deployments[d].target)
    {
      assert DeploymentHolds(a.deployments, a.deployments[d].target);
    }
  }

  lemma TargetDeletionKeeps(a: Admin, g: Id)
    requires AdminOk(a) && DeleteTarget(a, g).Some?
    ensures AdminOk(DeleteTarget(a, g).value)
  {
    forall d | d in a.deployments && a.deployments[d].enabled
      ensures a.deployments[d].target != g
    {
      assert !DeploymentHolds(a.deployments, g);
    }
  }

  lemma ChangeKeeps(a: Admin, c: Change)
    requires AdminOk(a)
    ensures AdminOk(Apply(a, c))
  {
    if Try(a, c).Some? {
      match c
      case TaskCreated(now, t, input) => CreateKeeps(a, now, t, input);
      case TaskUpdated(t, input) => UpdateKeeps(a, t, input);
      case TaskDeleted(t, ids) => DeleteKeeps(a, t, ids);
      case TargetDeleted(g) => TargetDeletionKeeps(a, g);
      case _ =>
    }
  }

  /** In every history no link of a live task leads to a deleted target. */
  lemma {:induction false} NoDanglingLinks(a: Admin, changes: seq<Change>)
    requires AdminOk(a)
    ensures AdminOk(AfterAll(a, changes))
    ensures forall k | k in AfterAll(a, changes).links :: Available(AfterAll(a, changes).targets, k.target)
    decreases |changes|
  {
    if changes != [] {
      ChangeKeeps(a, changes[0]);
      NoDanglingLinks(Apply(a, changes[0]), changes[1..]);
    }
  }

  // ---------- the same for certificates: where it fails ----------

  ghost predicate CertsOk(a: Admin) {
    forall t | t in a.tasks && !a.tasks[t].deleted ::
      a.tasks[t].certificate in a.certs && !a.certs[a.tasks[t].certificate].deleted
  }

  lemma ReleaseKeepsTasks(a: Admin, t: Id, ids: seq<Id>)
    requires DeleteTask(a, t, ids).Some?
    ensures DeleteTask(a, t, ids).value.certs == a.certs
    ensures DeleteTask(a, t, ids).value.tasks == a.tasks[t := a.tasks[t].(deleted := true, enabled := false)]
  {
    ReleasedExactly(
      a.(tasks := a.tasks[t := a.tasks[t].(deleted := true, enabled := false)], links := Unlink(a.links, t)), ids);
  }

  /** What the update looks at: the task, the foreign keys, the interval and the targets. */
  ghost predicate UpdateGoesThrough(a: Admin, t: Id, input: TaskInput) {
    && t in a.tasks && !a.tasks[t].deleted && input.certificate in a.certs
    && (input.credential.None? || input.credential.value in a.credentials)
    && 3600 <= input.interval <= 604800
    && (forall g | g in input.targets :: g in a.targets && a.targets[g].active && !a.targets[g].deleted)
    && (forall m, n | 0 <= m < n < |input.targets| :: input.targets[m] != input.targets[n])
  }

  lemma UpdateGoesThroughIff(a: Admin, t: Id, input: TaskInput)
    ensures UpdateTask(a, t, input).Some? <==> UpdateGoesThrough(a, t, input)
  {
    LinksInserted(Unlink(a.links, t), a.targets, t, input.targets);
  }

  /** Live tasks keep referring to live certificates, except that an update that goes through may
      move an existing task to a deleted one: the update is the only transaction that does not look. */
  lemma TaskCertificatesStayLiveIff(a: Admin, c: Change)
    requires CertsOk(a)
    ensures CertsOk(Apply(a, c))
            <==> !(c.TaskUpdated? && UpdateGoesThrough(a, c.t, c.input) && a.certs[c.input.certificate].deleted)
  {
    if c.TaskDeleted? && Try(a, c).Some? {
      ReleaseKeepsTasks(a, c.t, c.ids);
    }
    if c.TaskUpdated? {
      UpdateGoesThroughIff(a, c.t, c.input);
      if Try(a, c).Some? {
        assert Apply(a, c).tasks[c.t].certificate == c.input.certificate;
      }
    }
    if c.CertificateDeleted? && Try(a, c).Some? {
      forall t | t in a.tasks && !a.tasks[t].deleted
        ensures a.tasks[t].certificate != c.c
      {
      }
    }
  }

  /** A history, from two certificates and nothing else, in which an update does so. */
  lemma UpdateAdoptsDeletedCertificate(now: Time, cert: Cert) returns (a: Admin, changes: seq<Change>)
    requires !cert.deleted
    ensures a == Admin(map[0 := cert, 1 := cert], map[], map[], map[], map[], map[])
    ensures ValidChanges(a, changes) && !CertsOk(AfterAll(a, changes))
  {
    a := Admin(map[0 := cert, 1 := cert], map[], map[], map[], map[], map[]);
    var first, moved := TaskInput(0, RenewCertificate, None, HOUR, true, []), TaskInput(1, RenewCertificate, None, HOUR, true, []);
    var create, remove, update := TaskCreated(now, 0, first), CertificateDeleted(1), TaskUpdated(0, moved);
    var a1 := Apply(a, create);
    assert a1.tasks == map[0 := Task(0, RenewCertificate, None, HOUR, true, false, now + HOUR)] && a1.certs == a.certs;
    assert forall t | t in a1.tasks :: a1.tasks[t].certificate == 0;
    assert DeleteCertificate(a1, 1).Some?;
    var a2 := Apply(a1, remove);
    assert a2.certs == a.certs[1 := cert.(deleted := true)] && a2.tasks == a1.tasks;
    var a3 := Apply(a2, update);
    assert a3.tasks[0].certificate == 1 && a3.certs == a2.certs;
    changes := [create, remove, update];
    assert changes[1..] == [remove, update] && [remove, update][1..] == [update];
    assert [update][1..] == [];
    assert AfterAll(a2, [update]) == AfterAll(Apply(a2, update), []);
    assert ValidChanges(a2, [update]) && AfterAll(a2, [update]) == a3;
    assert ValidChanges(a1, [remove, update]) && AfterAll(a1, [remove, update]) == a3;
  }
}
