/** What creating, changing and deleting a task writes, and what it does to the work that follows. */
module TaskEffects {
  import opened Rows
  import opened Catalog
  import opened Engine
  import opened Scheduling
  import opened FanoutTheorems
  import opened TaskAdmin

  // ---------- the rows written ----------

  /** Everything but the tasks, links and targets stands, and so does every task row but `t`. */
  ghost predicate OnlyTask(a: Admin, a': Admin, t: Id) {
    && a'.certs == a.certs && a'.credentials == a.credentials && a'.deployments == a.deployments
    && t in a'.tasks && forall u | u != t :: (u in a'.tasks <==> u in a.tasks) && (u in a.tasks ==> a'.tasks[u] == a.tasks[u])
  }

  /** An update that goes through writes the whole configuration, the links in the given order, and leaves
      the due time alone. */
  lemma UpdateWrites(a: Admin, t: Id, input: TaskInput)
    requires UpdateGoesThrough(a, t, input)
    ensures var a' := Apply(a, TaskUpdated(t, input));
            && OnlyTask(a, a', t) && a'.targets == a.targets
            && a'.tasks[t].certificate == input.certificate && a'.tasks[t].action == input.action
            && a'.tasks[t].credential == input.credential && a'.tasks[t].interval == input.interval
            && a'.tasks[t].enabled == input.enabled && !a'.tasks[t].deleted
            && a'.tasks[t].nextRunAt == a.tasks[t].nextRunAt
            && (forall n | 0 <= n < |input.targets| ::
                  LinkKey(t, input.targets[n]) in a'.links && a'.links[LinkKey(t, input.targets[n])] == Link(n, true))
  {
    UpdateGoesThroughIff(a, t, input);
    LinksInserted(Unlink(a.links, t), a.targets, t, input.targets);
  }

  /** What a creation looks at; unlike an update it asks for a live certificate and an active
      credential, and for targets where the action needs them. */
  ghost predicate CreateGoesThrough(a: Admin, t: Id, input: TaskInput) {
    && t !in a.tasks && input.certificate in a.certs && !a.certs[input.certificate].deleted
    && (input.credential.Some? ==> input.credential.value in a.credentials && a.credentials[input.credential.value])
    && (input.interval == 0 || 3600 <= input.interval <= 604800)
    && (input.action == DeployAlb ==> input.targets != [])
    && (forall g | g in input.targets :: g in a.targets && a.targets[g].active && !a.targets[g].deleted)
    && (forall m, n | 0 <= m < n < |input.targets| :: input.targets[m] != input.targets[n])
  }

  lemma NoLinksYet(a: Admin, t: Id)
    requires AdminOk(a) && t !in a.tasks
    ensures forall k | k in a.links :: k.task != t
  {
  }

  lemma CreateGoesThroughIff(a: Admin, now: Time, t: Id, input: TaskInput)
    requires AdminOk(a)
    ensures CreateTask(a, now, t, input).Some? <==> CreateGoesThrough(a, t, input)
  {
    if t !in a.tasks {
      NoLinksYet(a, t);
      LinksInserted(a.links, a.targets, t, input.targets);
    }
  }

  /** A creation that goes through writes a live task that is due one interval from now, an hour
      being the default, and links it to its targets in the given order. */
  lemma CreateWrites(a: Admin, now: Time, t: Id, input: TaskInput)
    requires AdminOk(a) && CreateGoesThrough(a, t, input)
    ensures var a' := Apply(a, TaskCreated(now, t, input));
            && OnlyTask(a, a', t) && a'.targets == a.targets && LinkedTo(a.links, a'.links, t, input.targets)
            && (forall n | 0 <= n < |input.targets| :: a'.links[LinkKey(t, input.targets[n])] == Link(n, true))
            && a'.tasks[t].certificate == input.certificate && a'.tasks[t].action == input.action
            && a'.tasks[t].credential == input.credential && a'.tasks[t].enabled == input.enabled && !a'.tasks[t].deleted
            && a'.tasks[t].interval == (if input.interval == 0 then 3600 else input.interval)
            && a'.tasks[t].nextRunAt == now + a'.tasks[t].interval
  {
    CreateGoesThroughIff(a, now, t, input);
    NoLinksYet(a, t);
    LinksInserted(a.links, a.targets, t, input.targets);
  }

  /** A deletion marks the task, takes its links away and touches no other task. */
  lemma DeleteWrites(a: Admin, t: Id, ids: seq<Id>)
    requires t in a.tasks && !a.tasks[t].deleted
    ensures var a' := Apply(a, TaskDeleted(t, ids));
            && OnlyTask(a, a', t) && a'.tasks[t] == a.tasks[t].(deleted := true, enabled := false)
            && forall k :: (k in a'.links <==> k in a.links && k.task != t) && (k in a'.links ==> a'.links[k] == a.links[k])
  {
    ReleasedExactly(
      a.(tasks := a.tasks[t := a.tasks[t].(deleted := true, enabled := false)], links := Unlink(a.links, t)), ids);
  }

  /** The cleanup after a deletion takes a listed target if it is still there, no live task links it and no
      enabled deployment leads to it. */
  lemma ReleasedIff(a: Admin, ids: seq<Id>, g: Id)
    requires g in a.targets
    ensures g in ReleaseAll(a, ids).targets
    ensures ReleaseAll(a, ids).targets[g]
            == if && g in ids && !a.targets[g].deleted
                  && (forall k | k in a.links && k.target == g && k.task in a.tasks :: a.tasks[k.task].deleted)
                  && (forall d | d in a.deployments && a.deployments[d].target == g :: !a.deployments[d].enabled)
               then Target(false, true) else a.targets[g]
  {
    ReleasedExactly(a, ids);
  }

  // ---------- the work that follows ----------

  /** The task is paused or deleted. */
  predicate Rests(tasks: map<Id, Task>, t: Id) {
    t in tasks && (!tasks[t].enabled || tasks[t].deleted)
  }

  /** The change switches task `t` on. */
  predicate Enables(c: Change, t: Id) {
    c.TaskUpdated? && c.t == t && c.input.enabled
  }

  lemma RestStep(a: Admin, c: Change, t: Id)
    requires Rests(a.tasks, t) && (a.tasks[t].deleted || !Enables(c, t))
    ensures Rests(Apply(a, c).tasks, t)
    ensures a.tasks[t].deleted ==> Apply(a, c).tasks[t].deleted
  {
    if c.TaskDeleted? && Try(a, c).Some? {
      DeleteWrites(a, c.t, c.ids);
    }
  }

  lemma {:induction false} RestRun(a: Admin, changes: seq<Change>, t: Id)
    requires Rests(a.tasks, t) && (a.tasks[t].deleted || forall c | c in changes :: !Enables(c, t))
    ensures Rests(AfterAll(a, changes).tasks, t)
    decreases |changes|
  {
    if changes != [] {
      assert changes[0] in changes && forall c | c in changes[1..] :: c in changes;
      RestStep(a, changes[0], t);
      RestRun(Apply(a, changes[0]), changes[1..], t);
    }
  }

  /** Nothing is started for the task: an operator's run is refused, the due scan passes it over, and a
      new version of its certificate is not delivered by it. */
  ghost predicate StartsNothing(tasks: map<Id, Task>, t: Id) {
    && (forall q, certs, targets, now :: QueueRun(q, tasks, certs, targets, now, t) == NoTask)
    && (forall q, certs, versions, now :: !Eligible(Sched(q, tasks, certs, versions), now, t))
    && (forall c :: !Delivers(tasks, t, c))
  }

  lemma RestStartsNothing(tasks: map<Id, Task>, t: Id)
    requires Rests(tasks, t)
    ensures StartsNothing(tasks, t)
  {
  }

  /** After an update that pauses a task, nothing is started for it until an update enables it again. */
  lemma PausedStartsNothing(a: Admin, t: Id, input: TaskInput, changes: seq<Change>)
    requires UpdateGoesThrough(a, t, input) && !input.enabled && forall c | c in changes :: !Enables(c, t)
    ensures StartsNothing(AfterAll(Apply(a, TaskUpdated(t, input)), changes).tasks, t)
  {
    UpdateWrites(a, t, input);
    RestRun(Apply(a, TaskUpdated(t, input)), changes, t);
    RestStartsNothing(AfterAll(Apply(a, TaskUpdated(t, input)), changes).tasks, t);
  }

  /** Nothing is ever started for a deleted task. */
  lemma DeletedStartsNothing(a: Admin, t: Id, ids: seq<Id>, changes: seq<Change>)
    requires t in a.tasks && !a.tasks[t].deleted
    ensures StartsNothing(AfterAll(Apply(a, TaskDeleted(t, ids)), changes).tasks, t)
  {
    DeleteWrites(a, t, ids);
    RestRun(Apply(a, TaskDeleted(t, ids)), changes, t);
    RestStartsNothing(AfterAll(Apply(a, TaskDeleted(t, ids)), changes).tasks, t);
  }

  /** An update that enables a task puts it back to work: an operator's run is not refused for want of a
      task, and a delivery task delivers the new versions of its certificate. */
  lemma EnabledWorks(a: Admin, t: Id, input: TaskInput, q: Queue, certs: map<Id, Cert>, targets: seq<Id>, now: Time)
    requires UpdateGoesThrough(a, t, input) && input.enabled
    ensures var tasks := Apply(a, TaskUpdated(t, input)).tasks;
            && QueueRun(q, tasks, certs, targets, now, t) != NoTask
            && (input.action != RenewCertificate ==> Delivers(tasks, t, input.certificate))
  {
    UpdateWrites(a, t, input);
  }

  // ---------- targets, deployments and certificates ----------

  /** A target is created for an active credential, and is available at once. */
  lemma TargetCreatedIff(a: Admin, g: Id, credential: Id)
    ensures CreateTarget(a, g, credential).Some?
            <==> g !in a.targets && credential in a.credentials && a.credentials[credential]
    ensures CreateTarget(a, g, credential).Some? ==>
              CreateTarget(a, g, credential).value == a.(targets := a.targets[g := Target(true, false)])
  {
  }

  /** A target that is still there is deleted if and only if nothing uses it. */
  lemma TargetDeletedIff(a: Admin, g: Id)
    ensures DeleteTarget(a, g).Some?
            <==> && g in a.targets && !a.targets[g].deleted
                 && (forall k | k in a.links && k.target == g :: !a.links[k].enabled)
                 && (forall d | d in a.deployments && a.deployments[d].target == g :: !a.deployments[d].enabled)
    ensures DeleteTarget(a, g).Some? ==> DeleteTarget(a, g).value == a.(targets := a.targets[g := Target(false, true)])
  {
  }

  /** A deployment joins a live certificate and an available target that are not joined yet. */
  lemma DeploymentCreatedIff(a: Admin, d: Id, c: Id, g: Id, autoDeploy: bool)
    ensures CreateDeployment(a, d, c, g, autoDeploy).Some?
            <==> && d !in a.deployments && c in a.certs && !a.certs[c].deleted
                 && g in a.targets && a.targets[g].active && !a.targets[g].deleted
                 && (forall e | e in a.deployments :: a.deployments[e].certificate != c || a.deployments[e].target != g)
    ensures CreateDeployment(a, d, c, g, autoDeploy).Some? ==>
              CreateDeployment(a, d, c, g, autoDeploy).value == a.(deployments := a.deployments[d := Deployment(c, g, true, autoDeploy)])
  {
  }

  /** A certificate that is still there is deleted if and only if no live task and no enabled deployment
      refers to it. */
  lemma CertificateDeletedIff(a: Admin, c: Id)
    ensures DeleteCertificate(a, c).Some?
            <==> && c in a.certs && !a.certs[c].deleted
                 && (forall t | t in a.tasks && a.tasks[t].certificate == c :: a.tasks[t].deleted)
                 && (forall d | d in a.deployments && a.deployments[d].certificate == c :: !a.deployments[d].enabled)
    ensures DeleteCertificate(a, c).Some? ==>
              DeleteCertificate(a, c).value == a.(certs := a.certs[c := a.certs[c].(deleted := true)])
  {
  }

  /** Enabled deployments refer to live certificates, and no two deployments join the same pair. */
  ghost predicate DeploymentsOk(certs: map<Id, Cert>, deployments: map<Id, Deployment>) {
    && (forall d | d in deployments && deployments[d].enabled ::
          deployments[d].certificate in certs && !certs[deployments[d].certificate].deleted)
    && (forall d, e | d in deployments && e in deployments && deployments[d].certificate == deployments[e].certificate
                      && deployments[d].target == deployments[e].target :: d == e)
  }

  lemma DeploymentStep(a: Admin, c: Change)
    requires DeploymentsOk(a.certs, a.deployments)
    ensures DeploymentsOk(Apply(a, c).certs, Apply(a, c).deployments)
  {
    if Try(a, c).Some? {
      match c
      case TaskDeleted(t, ids) => DeleteWrites(a, t, ids);
      case DeploymentCreated(d, certificate, g, autoDeploy) => DeploymentCreatedIff(a, d, certificate, g, autoDeploy);
      case CertificateDeleted(certificate) => CertificateDeletedIff(a, certificate);
      case _ =>
    }
  }

  /** In every history, unlike tasks, deployments keep to live certificates, and stay one per certificate
      and target. */
  lemma {:induction false} DeploymentsStayOk(a: Admin, changes: seq<Change>)
    requires DeploymentsOk(a.certs, a.deployments)
    ensures DeploymentsOk(AfterAll(a, changes).certs, AfterAll(a, changes).deployments)
    decreases |changes|
  {
    if changes != [] {
      DeploymentStep(a, changes[0]);
      DeploymentsStayOk(Apply(a, changes[0]), changes[1..]);
    }
  }
}
