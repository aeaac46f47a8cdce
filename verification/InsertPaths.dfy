/** Every insert path of the store is an insert step of the job engine, and idempotency keys stay
    unique across all of them. */
module InsertPaths {
  import opened Rows
  import opened Catalog
  import opened Certificates
  import opened Engine
  import opened System
  import Policy
  import opened Invariant
  import opened Preservation
  import opened EngineTheorems
  import opened Evolution
  import opened Fanout
  import opened FanoutTheorems
  import opened Scheduling
  import opened DueScan

  /** What the paths know besides the queue: version keys name saved versions, and the random keys
      already drawn lie below the next one. */
  ghost predicate KeysInv(q: Queue, versions: set<Id>) {
    && Sound(q) && KeysOk(q.jobs, versions)
    && forall i | i in q.jobs && q.jobs[i].key.Once? :: q.jobs[i].key.nonce < q.nextId
  }

  lemma InvIsSound(s: Sys)
    requires Inv(s)
    ensures Sound(s.q)
  {
  }

  /** Growth of the tables is an insert step of the engine. */
  lemma GrowthIsAStep(s: Sys, q': Queue)
    requires Inv(s) && Grows(s.q, q', s.now)
    ensures Enabled(s, System.Insert(Added(s.q, q')))
    ensures Next(s, System.Insert(Added(s.q, q'))) == s.(q := q')
    ensures Inv(s.(q := q'))
  {
    InvIsSound(s);
    GrowthIsInsert(s.q, q', s.now);
    StepKeeps(s, System.Insert(Added(s.q, q')));
  }

  // ---------- the moves of the whole system ----------

  /** Work is any engine step; the others are the insert paths with what their queries returned. Scan is
      the due scan with its insert accepted. */
  datatype Move =
    | Work(step: Step)
    | Create(certificate: Id)
    | Request(certificate: Id, certs: map<Id, Cert>)
    | Redeploy(m: Material, target: Id)
    | Manual(t: Id, tasks: map<Id, Task>, certs: map<Id, Cert>, targets: seq<Id>)
    | Scan(tasks: map<Id, Task>, certs: map<Id, Cert>, rows: map<Id, Version>, log: seq<Id>)
    | Save(m: Material, legacy: seq<Id>, joined: seq<Joined>)

  datatype Plant = Plant(s: Sys, versions: set<Id>)

  ghost predicate Permitted(p: Plant, move: Move) {
    match move
    case Work(step) => !step.Insert? && Enabled(p.s, step)
    case Create(c) => true
    case Request(c, certs) => QueueIssue(p.s.q, certs, p.s.now, c).IssueQueued?
    case Redeploy(m, _) => m.version in p.versions
    case Manual(t, tasks, certs, targets) => QueueRun(p.s.q, tasks, certs, targets, p.s.now, t).RunStarted?
    case Scan(tasks, certs, rows, log) => IsScan(Sched(p.s.q, tasks, certs, rows), p.s.now, log)
    case Save(m, _, joined) =>
      && m.version !in p.versions
      && forall n | 0 <= n < |joined| :: joined[n].action in {UploadSsl, DeployAlb}
  }

  /** The queue an insert path leaves behind. */
  ghost function Inserted(p: Plant, move: Move): Queue
    requires Permitted(p, move) && !move.Work?
  {
    var q, now := p.s.q, p.s.now;
    match move
    case Create(c) => Fanout.Insert(q, IssueJob(c, InitialIssue, now))
    case Request(c, certs) => QueueIssue(q, certs, now, c).q
    case Redeploy(m, g) => Fanout.Insert(q, LegacyJob(m, g, now))
    case Manual(t, tasks, certs, targets) => QueueRun(q, tasks, certs, targets, now, t).q
    case Scan(tasks, certs, rows, log) => ScanAll(Sched(q, tasks, certs, rows), now, log).q
    case Save(m, legacy, joined) => FanOut(q, m, legacy, joined, now)
  }

  lemma InsertedGrows(p: Plant, move: Move)
    requires Permitted(p, move) && !move.Work? && Sound(p.s.q)
    ensures Grows(p.s.q, Inserted(p, move), p.s.now) && Sound(Inserted(p, move))
  {
    var q, now := p.s.q, p.s.now;
    match move
    case Create(c) => InsertGrows(q, IssueJob(c, InitialIssue, now), now);
    case Request(c, certs) => IssueGrows(q, certs, now, c);
    case Redeploy(m, g) => InsertGrows(q, LegacyJob(m, g, now), now);
    case Manual(t, tasks, certs, targets) => RunGrows(q, tasks, certs, targets, now, t);
    case Scan(tasks, certs, rows, log) => ScanAllGrows(Sched(q, tasks, certs, rows), now, log);
    case Save(m, legacy, joined) => FanOutGrows(q, m, legacy, joined, now);
  }

  lemma IssueGrows(q: Queue, certs: map<Id, Cert>, now: Time, c: Id)
    requires Sound(q) && QueueIssue(q, certs, now, c).IssueQueued?
    ensures var q' := QueueIssue(q, certs, now, c).q; Grows(q, q', now) && Sound(q')
  {
  }

  lemma RunGrows(q: Queue, tasks: map<Id, Task>, certs: map<Id, Cert>, targets: seq<Id>, now: Time, t: Id)
    requires Sound(q) && QueueRun(q, tasks, certs, targets, now, t).RunStarted?
    ensures var q' := QueueRun(q, tasks, certs, targets, now, t).q; Grows(q, q', now) && Sound(q')
  {
    var task := tasks[t];
    var version := if task.action == RenewCertificate then None else certs[task.certificate].current;
    ManualRunGrows(q, t, task, version, Slots(task, targets), now);
  }

  // ---------- keys ----------

  /** New jobs whose key is drawn with their id never collide. */
  lemma DrawnKeys(q: Queue, q': Queue, now: Time, versions: set<Id>)
    requires KeysInv(q, versions) && Grows(q, q', now) && Sound(q')
    requires forall i | i in q'.jobs && i !in q.jobs :: q'.jobs[i].key == Once(i)
    ensures KeysInv(q', versions)
  {
    assert forall i | i in q'.jobs && i !in q.jobs :: NewJobOk(q, q', now, i);
  }

  lemma {:induction false} ScanDraws(s: Sched, now: Time, log: seq<Id>, versions: set<Id>)
    requires KeysInv(s.q, versions) && IsScan(s, now, log)
    ensures KeysInv(ScanAll(s, now, log).q, versions)
    decreases |log|
  {
    if log != [] {
      ScanGrows(s, now, log[0]);
      DrawnKeys(s.q, ScanOne(s, now, log[0]).q, now, versions);
      ScanDraws(ScanOne(s, now, log[0]), now, log[1..], versions);
    }
  }

  lemma FixedKey(q: Queue, j: Job, now: Time, versions: set<Id>)
    requires KeysInv(q, versions) && NewRow(j, now) && j.run == None && !j.key.Once?
    requires j.key.ForVersion? || j.key.ForVersionAndTarget? ==> j.key.version in versions
    ensures KeysInv(Fanout.Insert(q, j), versions)
  {
    InsertKeys(q, j, versions);
    InsertGrows(q, j, now);
  }

  lemma SaveKeys(q: Queue, m: Material, legacy: seq<Id>, joined: seq<Joined>, now: Time, versions: set<Id>)
    requires KeysInv(q, versions) && forall n | 0 <= n < |joined| :: joined[n].action in {UploadSsl, DeployAlb}
    ensures KeysInv(FanOut(q, m, legacy, joined, now), versions + {m.version})
  {
    var q' := FanOut(q, m, legacy, joined, now);
    FanOutGrows(q, m, legacy, joined, now);
    FanOutKeys(q, m, legacy, joined, now, versions + {m.version});
    AllKeysAre(m, GroupBy(joined));
    forall i | i in q'.jobs && q'.jobs[i].key.Once?
      ensures q'.jobs[i].key.nonce < q'.nextId
    {
      assert (q'.jobs[i].scope, q'.jobs[i].key) in Keys(q'.jobs);
    }
  }

  lemma ManualDraws(q: Queue, tasks: map<Id, Task>, certs: map<Id, Cert>, targets: seq<Id>, now: Time, t: Id, i: Id)
    requires Sound(q)
    requires var o := QueueRun(q, tasks, certs, targets, now, t); o.RunStarted? && i in o.q.jobs && i !in q.jobs
    ensures QueueRun(q, tasks, certs, targets, now, t).q.jobs[i].key == Once(i)
  {
  }

  lemma InsertedKeys(p: Plant, move: Move)
    requires Permitted(p, move) && !move.Work? && KeysInv(p.s.q, p.versions)
    ensures KeysInv(Inserted(p, move), if move.Save? then p.versions + {move.m.version} else p.versions)
  {
    var q, now, q' := p.s.q, p.s.now, Inserted(p, move);
    match move
    case Create(c) => FixedKey(q, IssueJob(c, InitialIssue, now), now, p.versions);
    case Redeploy(m, g) => FixedKey(q, LegacyJob(m, g, now), now, p.versions);
    case Request(c, certs) =>
      IssueGrows(q, certs, now, c);
      DrawnKeys(q, q', now, p.versions);
    case Manual(t, tasks, certs, targets) =>
      RunGrows(q, tasks, certs, targets, now, t);
      forall i | i in q'.jobs && i !in q.jobs {
        ManualDraws(q, tasks, certs, targets, now, t, i);
      }
      DrawnKeys(q, q', now, p.versions);
    case Scan(tasks, certs, rows, log) => ScanDraws(Sched(q, tasks, certs, rows), now, log, p.versions);
    case Save(m, legacy, joined) => SaveKeys(q, m, legacy, joined, now, p.versions);
  }

  /** The engine itself never adds a job or rewrites a key. */
  lemma WorkKeepsJobs(s: Sys, step: Step, i: Id)
    requires Inv(s) && Enabled(s, step) && !step.Insert? && i in Next(s, step).q.jobs
    ensures i in s.q.jobs && Next(s, step).q.jobs[i].scope == s.q.jobs[i].scope && Next(s, step).q.jobs[i].key == s.q.jobs[i].key
  {
    match step
    case Finish(w, result) =>
      FinishInState(s, w, result);
      StepChanges(s, step, i);
    case Take(w, id) =>
    case Confirm(c, job) =>
    case Cancel(task) =>
    case Recover(ids) => StepChanges(s, step, i);
    case _ =>
  }

  lemma FinishKeepsIds(q: Queue, now: Time, c: Claim, w: Id, result: Policy.HandlerResult)
    ensures FinishTx(q, now, c, w, result).Some? ==> FinishTx(q, now, c, w, result).value.nextId == q.nextId
  {
  }

  lemma {:induction false} RecoverKeepsIds(q: Queue, now: Time, delay: Time, ids: seq<Id>)
    requires forall i | i in ids :: i in q.jobs
    ensures RecoverJobs(q, now, delay, ids).nextId == q.nextId
    decreases |ids|
  {
    if ids != [] {
      RecoverKeepsIds(RecoverOne(q, now, delay, ids[0]), now, delay, ids[1..]);
    }
  }

  lemma WorkKeepsIds(s: Sys, step: Step)
    requires Enabled(s, step) && !step.Insert?
    ensures s.q.nextId <= Next(s, step).q.nextId
  {
    match step
    case Finish(w, result) => FinishKeepsIds(s.q, s.now, s.workers[w], w, result);
    case Recover(ids) => RecoverKeepsIds(s.q, s.now, Policy.RetryDelay(1), ids);
    case _ =>
  }

  /** Keys stand when no job is added and no key rewritten. */
  lemma SameKeys(q: Queue, q': Queue, versions: set<Id>)
    requires KeysInv(q, versions) && Sound(q') && q.nextId <= q'.nextId
    requires forall i | i in q'.jobs :: i in q.jobs && q'.jobs[i].scope == q.jobs[i].scope && q'.jobs[i].key == q.jobs[i].key
    ensures KeysInv(q', versions)
  {
  }

  lemma WorkKeys(s: Sys, step: Step, versions: set<Id>)
    requires Inv(s) && Enabled(s, step) && !step.Insert? && KeysInv(s.q, versions)
    ensures KeysInv(Next(s, step).q, versions)
  {
    StepKeeps(s, step);
    InvIsSound(Next(s, step));
    WorkKeepsIds(s, step);
    forall i | i in Next(s, step).q.jobs {
      WorkKeepsJobs(s, step, i);
    }
    SameKeys(s.q, Next(s, step).q, versions);
  }

  // ---------- whole histories ----------

  ghost function Moved(p: Plant, move: Move): Plant
    requires Permitted(p, move)
  {
    if move.Work? then p.(s := Next(p.s, move.step))
    else Plant(p.s.(q := Inserted(p, move)), if move.Save? then p.versions + {move.m.version} else p.versions)
  }

  ghost predicate ValidMoves(p: Plant, moves: seq<Move>)
    decreases |moves|
  {
    moves == [] || (Permitted(p, moves[0]) && ValidMoves(Moved(p, moves[0]), moves[1..]))
  }

  ghost function AfterMoves(p: Plant, moves: seq<Move>): Plant
    requires ValidMoves(p, moves)
    decreases |moves|
  {
    if moves == [] then p else AfterMoves(Moved(p, moves[0]), moves[1..])
  }

  ghost predicate PlantInv(p: Plant) {
    Inv(p.s) && KeysInv(p.s.q, p.versions)
  }

  lemma MoveKeeps(p: Plant, move: Move)
    requires PlantInv(p) && Permitted(p, move)
    ensures PlantInv(Moved(p, move))
  {
    if move.Work? {
      StepKeeps(p.s, move.step);
      WorkKeys(p.s, move.step, p.versions);
    } else {
      InsertedGrows(p, move);
      GrowthIsAStep(p.s, Inserted(p, move));
      InsertedKeys(p, move);
    }
  }

  lemma {:induction false} MovesKeep(p: Plant, moves: seq<Move>)
    requires PlantInv(p) && ValidMoves(p, moves)
    ensures PlantInv(AfterMoves(p, moves))
    decreases |moves|
  {
    if moves != [] {
      MoveKeeps(p, moves[0]);
      MovesKeep(Moved(p, moves[0]), moves[1..]);
    }
  }

  lemma EmptyPlant(now: Time)
    ensures PlantInv(Plant(Initial(now), {}))
  {
    RunKeeps(Initial(now), []);
  }

  /** Every renewal was asked for by an operator's run of its task. */
  ghost predicate RenewalsAreManual(jobs: map<Id, Job>) {
    forall i | i in jobs && jobs[i].kind == Renew :: IsManual(jobs[i])
  }

  predicate IsManual(j: Job) {
    j.scope.TaskScope? && j.task == Some(j.scope.id)
  }

  lemma DeliverAllAdds(q: Queue, m: Material, ds: seq<Delivery>, now: Time)
    requires Sound(q) && RenewalsAreManual(q.jobs)
    ensures RenewalsAreManual(DeliverAll(q, m, ds, now).jobs)
  {
    DeliverAllGrows(q, m, ds, now);
    var jobs' := DeliverAll(q, m, ds, now).jobs;
    forall i | i in jobs' && jobs'[i].kind == Renew
      ensures IsManual(jobs'[i])
    {
      if i !in q.jobs {
        var n := DeliverAllExpected(q, m, ds, now, i);
      }
    }
  }

  lemma {:induction false} LegacyAdds(q: Queue, m: Material, legacy: seq<Id>, now: Time)
    requires RenewalsAreManual(q.jobs)
    ensures RenewalsAreManual(InsertLegacy(q, m, legacy, now).jobs)
  {
    if legacy != [] {
      LegacyAdds(q, m, legacy[..|legacy| - 1], now);
    }
  }

  lemma InsertedRenewals(p: Plant, move: Move)
    requires Permitted(p, move) && !move.Work? && !move.Scan? && Sound(p.s.q) && RenewalsAreManual(p.s.q.jobs)
    ensures RenewalsAreManual(Inserted(p, move).jobs)
  {
    var q, now := p.s.q, p.s.now;
    match move
    case Create(c) =>
    case Request(c, certs) =>
    case Redeploy(m, g) =>
    case Manual(t, tasks, certs, targets) =>
      forall i | i in Inserted(p, move).jobs && i !in q.jobs {
        ManualScope(q, tasks, certs, targets, now, t, i);
      }
      RunGrows(q, tasks, certs, targets, now, t);
    case Save(m, legacy, joined) =>
      LegacyAdds(q, m, legacy, now);
      LegacyGrows(q, m, legacy, now);
      DeliverAllAdds(InsertLegacy(q, m, legacy, now), m, GroupBy(joined), now);
  }

  lemma ManualScope(q: Queue, tasks: map<Id, Task>, certs: map<Id, Cert>, targets: seq<Id>, now: Time, t: Id, i: Id)
    requires Sound(q)
    requires var o := QueueRun(q, tasks, certs, targets, now, t); o.RunStarted? && i in o.q.jobs && i !in q.jobs
    ensures IsManual(QueueRun(q, tasks, certs, targets, now, t).q.jobs[i])
  {
  }

  lemma WorkRenewals(s: Sys, step: Step)
    requires Inv(s) && Enabled(s, step) && !step.Insert? && RenewalsAreManual(s.q.jobs)
    ensures RenewalsAreManual(Next(s, step).q.jobs)
  {
    forall i | i in Next(s, step).q.jobs && Next(s, step).q.jobs[i].kind == Renew
      ensures IsManual(Next(s, step).q.jobs[i])
    {
      WorkKeepsJobs(s, step, i);
      StepChanges(s, step, i);
    }
  }

  /** The scan as it stands adds nothing, so it is no move at all; without it every renewal in every
      history was started by hand. */
  lemma {:induction false} OnlyManualRenewals(p: Plant, moves: seq<Move>)
    requires PlantInv(p) && ValidMoves(p, moves) && RenewalsAreManual(p.s.q.jobs) && forall move | move in moves :: !move.Scan?
    ensures RenewalsAreManual(AfterMoves(p, moves).s.q.jobs)
    decreases |moves|
  {
    if moves != [] {
      assert moves[0] in moves && forall move | move in moves[1..] :: move in moves;
      if moves[0].Work? {
        WorkRenewals(p.s, moves[0].step);
      } else {
        InsertedRenewals(p, moves[0]);
      }
      MoveKeeps(p, moves[0]);
      OnlyManualRenewals(Moved(p, moves[0]), moves[1..]);
    }
  }

  /** In every history of engine steps, requests, manual runs, scans and earlier versions: a new
      version gets exactly the jobs the catalogue asks for, one each, whatever was queued before. */
  lemma EveryVersionIsDelivered(now: Time, moves: seq<Move>, m: Material, legacy: seq<Id>, rows: seq<Joined>,
                                tasks: map<Id, Task>, links: map<LinkKey, Link>, deployments: map<Id, Deployment>, k: (Scope, Key))
    requires ValidMoves(Plant(Initial(now), {}), moves)
    requires m.version !in AfterMoves(Plant(Initial(now), {}), moves).versions
    requires IsJoin(rows, tasks, links, m.certificate) && ListsAutoDeploys(legacy, deployments, m.certificate)
    ensures var s := AfterMoves(Plant(Initial(now), {}), moves).s;
            |NewWith(s.q, FanOut(s.q, m, legacy, rows, s.now), k)|
            == if TaskAsks(m, tasks, links, k) || DeploymentAsks(m, deployments, k) then 1 else 0
  {
    var p := AfterMoves(Plant(Initial(now), {}), moves);
    EmptyPlant(now);
    MovesKeep(Plant(Initial(now), {}), moves);
    FansOutExactly(p.s.q, m, legacy, rows, p.s.now, p.versions, tasks, links, deployments, k);
  }
}
