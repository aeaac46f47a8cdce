/** Insert paths of the jobs table, and the fan-out of a new certificate version. */
module Fanout {
  import opened Rows
  import opened Catalog
  import opened Engine

  // ---------- inserting ----------

  function NewJob(kind: Kind, scope: Scope, key: Key, certificate: Id, target: Option<Id>, credential: Option<Id>,
                  task: Option<Id>, run: Option<Id>, now: Time): Job {
    Job(kind, Queued, scope, key, Some(certificate), target, credential, task, run, now, now, 0, 5, None, false)
  }

  predicate HasKey(jobs: map<Id, Job>, scope: Scope, key: Key) {
    exists i | i in jobs :: jobs[i].scope == scope && jobs[i].key == key
  }

  /** INSERT ... ON CONFLICT (idempotency_scope, idempotency_key) DO NOTHING. */
  function Insert(q: Queue, j: Job): Queue {
    if HasKey(q.jobs, j.scope, j.key) then q
    else q.(jobs := q.jobs[q.nextId := j], nextId := q.nextId + 1)
  }

  /** The UNIQUE constraint, and version keys name saved versions only. */
  ghost predicate KeysOk(jobs: map<Id, Job>, versions: set<Id>) {
    && (forall i, k | i in jobs && k in jobs && jobs[i].scope == jobs[k].scope && jobs[i].key == jobs[k].key :: i == k)
    && (forall i | i in jobs && (jobs[i].key.ForVersion? || jobs[i].key.ForVersionAndTarget?) ::
          jobs[i].key.version in versions)
  }

  function Keys(jobs: map<Id, Job>): set<(Scope, Key)> {
    set i | i in jobs :: (jobs[i].scope, jobs[i].key)
  }

  ghost predicate Fresh(q: Queue) {
    && (forall i | i in q.jobs :: i < q.nextId)
    && (forall r | r in q.runs :: r < q.nextId)
  }

  lemma InsertKeys(q: Queue, j: Job, versions: set<Id>)
    requires Fresh(q) && KeysOk(q.jobs, versions)
    requires j.key.ForVersion? || j.key.ForVersionAndTarget? ==> j.key.version in versions
    ensures var q' := Insert(q, j);
            && Fresh(q') && KeysOk(q'.jobs, versions)
            && Keys(q'.jobs) == Keys(q.jobs) + {(j.scope, j.key)}
  {
    var q' := Insert(q, j);
    if q' == q {
      var i :| i in q.jobs && q.jobs[i].scope == j.scope && q.jobs[i].key == j.key;
      assert (q.jobs[i].scope, q.jobs[i].key) in Keys(q.jobs);
    } else {
      assert q'.jobs[q.nextId] == j;
      forall k | k in Keys(q.jobs) + {(j.scope, j.key)}
        ensures k in Keys(q'.jobs)
      {
        if k in Keys(q.jobs) {
          var i :| i in q.jobs && k == (q.jobs[i].scope, q.jobs[i].key);
          assert q'.jobs[i] == q.jobs[i];
        }
      }
    }
  }

  // ---------- what every insert path leaves behind ----------

  /** `q'` is `q` plus new rows: new jobs belong to new runs, whose totals count them. */
  ghost predicate Grows(q: Queue, q': Queue, now: Time) {
    && q.nextId <= q'.nextId && q'.execs == q.execs && q'.challenges == q.challenges
    && (forall i | i in q.jobs :: i in q'.jobs && q'.jobs[i] == q.jobs[i])
    && (forall r | r in q.runs :: r in q'.runs && q'.runs[r] == q.runs[r])
    && (forall i | i in q'.jobs && i !in q.jobs :: NewJobOk(q, q', now, i))
    && (forall r | r in q'.runs && r !in q.runs :: NewRunOk(q, q', r))
  }

  ghost predicate NewJobOk(q: Queue, q': Queue, now: Time, i: Id)
    requires i in q'.jobs
  {
    var j := q'.jobs[i];
    && q.nextId <= i < q'.nextId && NewRow(j, now)
    && (j.run.Some? ==> j.run.value in q'.runs && j.run.value !in q.runs && j.task == Some(q'.runs[j.run.value].task))
  }

  ghost predicate NewRunOk(q: Queue, q': Queue, r: Id)
    requires r in q'.runs
  {
    q.nextId <= r < q'.nextId && NewRun(q'.runs[r]) && q'.runs[r].total == |Children(q'.jobs, r)| && q'.runs[r].total > 0
  }

  function Added(q: Queue, q': Queue): Batch {
    Batch(map i | i in q'.jobs && i !in q.jobs :: q'.jobs[i], map r | r in q'.runs && r !in q.runs :: q'.runs[r], q'.nextId)
  }

  ghost predicate JobsKnowRuns(q: Queue) {
    forall i | i in q.jobs && q.jobs[i].run.Some? :: q.jobs[i].run.value in q.runs
  }

  /** Every insert path is an Insert step of the job engine. */
  lemma GrowthIsInsert(q: Queue, q': Queue, now: Time)
    requires Grows(q, q', now) && JobsKnowRuns(q)
    ensures GoodBatch(q, now, Added(q, q')) && q' == Enqueue(q, Added(q, q'))
  {
    AddedIsGood(q, q', now);
    AddedIsTheDifference(q, q', now);
  }

  lemma AddedIsTheDifference(q: Queue, q': Queue, now: Time)
    requires Grows(q, q', now)
    ensures q' == Enqueue(q, Added(q, q'))
  {
    AddedJobs(q.jobs, q'.jobs);
    AddedRuns(q.runs, q'.runs);
  }

  lemma AddedJobs(jobs: map<Id, Job>, jobs': map<Id, Job>)
    requires forall i | i in jobs :: i in jobs' && jobs'[i] == jobs[i]
    ensures jobs + (map i | i in jobs' && i !in jobs :: jobs'[i]) == jobs'
  {
  }

  lemma AddedRuns(runs: map<Id, Run>, runs': map<Id, Run>)
    requires forall r | r in runs :: r in runs' && runs'[r] == runs[r]
    ensures runs + (map r | r in runs' && r !in runs :: runs'[r]) == runs'
  {
  }

  lemma AddedIsGood(q: Queue, q': Queue, now: Time)
    requires Grows(q, q', now) && JobsKnowRuns(q)
    ensures GoodBatch(q, now, Added(q, q'))
  {
    var b := Added(q, q');
    forall i | i in b.jobs
      ensures NewJobOk(q, q', now, i)
    {
    }
    forall r | r in b.runs
      ensures NewRunOk(q, q', r) && Children(b.jobs, r) == Children(q'.jobs, r)
    {
      AddedChildren(q, q', now, r);
    }
  }

  lemma AddedChildren(q: Queue, q': Queue, now: Time, r: Id)
    requires Grows(q, q', now) && JobsKnowRuns(q) && r in q'.runs && r !in q.runs
    ensures Children(Added(q, q').jobs, r) == Children(q'.jobs, r)
  {
    forall i | i in Children(q'.jobs, r)
      ensures i in Children(Added(q, q').jobs, r)
    {
      assert i !in q.jobs;
    }
  }

  lemma GrowsTransitively(q: Queue, q1: Queue, q2: Queue, now: Time)
    requires Grows(q, q1, now) && Grows(q1, q2, now)
    ensures Grows(q, q2, now)
  {
    forall r | r in q2.runs && r !in q.runs
      ensures NewRunOk(q, q2, r)
    {
      if r in q1.runs {
        assert NewRunOk(q, q1, r);
        SameChildren(q1, q2, now, r);
      } else {
        assert NewRunOk(q1, q2, r);
      }
    }
    forall i | i in q2.jobs && i !in q.jobs
      ensures NewJobOk(q, q2, now, i)
    {
      assert if i in q1.jobs then NewJobOk(q, q1, now, i) else NewJobOk(q1, q2, now, i);
    }
  }

  lemma SameChildren(q: Queue, q': Queue, now: Time, r: Id)
    requires Grows(q, q', now) && r in q.runs
    ensures Children(q'.jobs, r) == Children(q.jobs, r)
  {
    forall i | i in Children(q'.jobs, r)
      ensures i in Children(q.jobs, r)
    {
      if i !in q.jobs {
        assert NewJobOk(q, q', now, i);
      }
    }
  }

  // ---------- grouping the joined rows ----------

  /** One row of automation_tasks LEFT JOIN automation_task_targets. */
  datatype Joined = Joined(task: Id, action: Action, credential: Option<Id>, target: Option<Id>)

  datatype Delivery = Delivery(task: Id, action: Action, credential: Option<Id>, targets: seq<Id>)

  /** The tasks of the rows, in order of first appearance. */
  function TaskIds(rows: seq<Joined>): seq<Id> {
    if rows == [] then []
    else
      var ids := TaskIds(rows[..|rows| - 1]);
      var id := rows[|rows| - 1].task;
      if id in ids then ids else ids + [id]
  }

  function TargetsOf(rows: seq<Joined>, task: Id): seq<Id> {
    if rows == [] then []
    else
      var row := rows[|rows| - 1];
      TargetsOf(rows[..|rows| - 1], task) + if row.task == task && row.target.Some? then [row.target.value] else []
  }

  function FirstRow(rows: seq<Joined>, task: Id): Joined
    requires task in TaskIds(rows)
  {
    var before := rows[..|rows| - 1];
    if task in TaskIds(before) then FirstRow(before, task) else rows[|rows| - 1]
  }

  /** GROUP BY task: the reference for the index-map loop. */
  function GroupBy(rows: seq<Joined>): seq<Delivery> {
    var ids := TaskIds(rows);
    seq(|ids|, k requires 0 <= k < |ids| => GroupOf(rows, ids[k]))
  }

  function GroupOf(rows: seq<Joined>, task: Id): Delivery
    requires task in TaskIds(rows)
  {
    var first := FirstRow(rows, task);
    Delivery(task, first.action, first.credential, TargetsOf(rows, task))
  }

  lemma {:induction false} TaskIdsAreTheTasks(rows: seq<Joined>)
    ensures forall k | 0 <= k < |rows| :: rows[k].task in TaskIds(rows)
    ensures forall t | t in TaskIds(rows) :: exists k :: 0 <= k < |rows| && rows[k].task == t
    ensures forall a, b | 0 <= a < b < |TaskIds(rows)| :: TaskIds(rows)[a] != TaskIds(rows)[b]
  {
    if rows != [] {
      var before := rows[..|rows| - 1];
      TaskIdsAreTheTasks(before);
      forall k | 0 <= k < |rows|
        ensures rows[k].task in TaskIds(rows)
      {
        assert k < |before| ==> before[k] == rows[k];
      }
      forall t | t in TaskIds(rows)
        ensures exists k :: 0 <= k < |rows| && rows[k].task == t
      {
        if t in TaskIds(before) {
          var k :| 0 <= k < |before| && before[k].task == t;
          assert rows[k].task == t;
        }
      }
    }
  }

  lemma {:induction false} TargetsOfAreTheTargets(rows: seq<Joined>, t: Id)
    ensures forall k | 0 <= k < |rows| && rows[k].task == t && rows[k].target.Some? :: rows[k].target.value in TargetsOf(rows, t)
    ensures forall g | g in TargetsOf(rows, t) :: exists k :: 0 <= k < |rows| && rows[k].task == t && rows[k].target == Some(g)
  {
    if rows != [] {
      var before := rows[..|rows| - 1];
      TargetsOfAreTheTargets(before, t);
      forall k | 0 <= k < |rows| && rows[k].task == t && rows[k].target.Some?
        ensures rows[k].target.value in TargetsOf(rows, t)
      {
        assert k < |before| ==> before[k] == rows[k];
      }
      forall g | g in TargetsOf(rows, t)
        ensures exists k :: 0 <= k < |rows| && rows[k].task == t && rows[k].target == Some(g)
      {
        if g in TargetsOf(before, t) {
          var k :| 0 <= k < |before| && before[k].task == t && before[k].target == Some(g);
          assert rows[k].task == t && rows[k].target == Some(g);
        } else {
          assert rows[|rows| - 1].task == t && rows[|rows| - 1].target == Some(g);
        }
      }
    }
  }

  function Extra(row: Joined): seq<Id> {
    if row.target.Some? then [row.target.value] else []
  }

  lemma GroupOfStep(before: seq<Joined>, row: Joined, t: Id)
    requires t in TaskIds(before)
    ensures t in TaskIds(before + [row])
    ensures var group := GroupOf(before, t);
            GroupOf(before + [row], t) == if t == row.task then group.(targets := group.targets + Extra(row)) else group
  {
    assert (before + [row])[..|before|] == before;
  }

  lemma NewGroup(before: seq<Joined>, row: Joined)
    requires row.task !in TaskIds(before)
    ensures TaskIds(before + [row]) == TaskIds(before) + [row.task]
    ensures GroupOf(before + [row], row.task) == Delivery(row.task, row.action, row.credential, Extra(row))
  {
    assert (before + [row])[..|before|] == before;
    NoTargetsYet(before, row.task);
  }

  /** A row of a known task extends that task's group only. */
  lemma GroupExtends(before: seq<Joined>, row: Joined, index: nat)
    requires index < |TaskIds(before)| && TaskIds(before)[index] == row.task
    ensures var groups := GroupBy(before);
            GroupBy(before + [row]) == groups[index := groups[index].(targets := groups[index].targets + Extra(row))]
  {
    assert (before + [row])[..|before|] == before;
    TaskIdsAreTheTasks(before);
    forall k | 0 <= k < |TaskIds(before)| {
      GroupOfStep(before, row, TaskIds(before)[k]);
    }
  }

  /** A row of a new task opens a group at the end. */
  lemma GroupOpens(before: seq<Joined>, row: Joined)
    requires row.task !in TaskIds(before)
    ensures GroupBy(before + [row]) == GroupBy(before) + [Delivery(row.task, row.action, row.credential, Extra(row))]
  {
    NewGroup(before, row);
    forall k | 0 <= k < |TaskIds(before)| {
      GroupOfStep(before, row, TaskIds(before)[k]);
    }
  }

  /** The grouping loop: an index map from task to its slot, rows in any order, with repeats. */
  method GroupRows(rows: seq<Joined>) returns (tasks: seq<Delivery>)
    ensures tasks == GroupBy(rows)
  {
    tasks := [];
    var indexes: map<Id, nat> := map[];
    for n := 0 to |rows|
      invariant tasks == GroupBy(rows[..n])
      invariant indexes.Keys == set t | t in TaskIds(rows[..n])
      invariant forall t | t in indexes :: indexes[t] < |tasks| && TaskIds(rows[..n])[indexes[t]] == t
    {
      var row := rows[n];
      ghost var before := rows[..n];
      assert rows[..n + 1] == before + [row];
      assert (before + [row])[..n] == before;
      if row.task in indexes {
        GroupExtends(before, row, indexes[row.task]);
      } else {
        GroupOpens(before, row);
        indexes := indexes[row.task := |tasks|];
        tasks := tasks + [Delivery(row.task, row.action, row.credential, [])];
      }
      var index := indexes[row.task];
      assert tasks[index].targets + [] == tasks[index].targets;
      if row.target.Some? {
        tasks := tasks[index := tasks[index].(targets := tasks[index].targets + [row.target.value])];
      }
      assert tasks == GroupBy(before + [row]);
    }
    assert rows[..|rows|] == rows;
  }

  lemma {:induction false} NoTargetsYet(rows: seq<Joined>, t: Id)
    requires t !in TaskIds(rows)
    ensures TargetsOf(rows, t) == []
  {
    if rows != [] {
      NoTargetsYet(rows[..|rows| - 1], t);
    }
  }

  // ---------- the fan-out of a saved version ----------

  datatype Material = Material(certificate: Id, version: Id)

  function LegacyJob(m: Material, target: Id, now: Time): Job {
    NewJob(Deploy, TargetScope(target), ForVersion(m.version), m.certificate, Some(target), None, None, None, now)
  }

  function UploadJob(m: Material, d: Delivery, run: Id, now: Time): Job {
    NewJob(Upload, TaskScope(d.task), ForVersion(m.version), m.certificate, None, d.credential, Some(d.task), Some(run), now)
  }

  function DeployJob(m: Material, d: Delivery, target: Id, run: Id, now: Time): Job {
    NewJob(Deploy, TaskScope(d.task), ForVersionAndTarget(m.version, target), m.certificate, Some(target), None,
           Some(d.task), Some(run), now)
  }

  function InsertLegacy(q: Queue, m: Material, targets: seq<Id>, now: Time): Queue {
    if targets == [] then q
    else Insert(InsertLegacy(q, m, targets[..|targets| - 1], now), LegacyJob(m, targets[|targets| - 1], now))
  }

  function InsertDeploys(q: Queue, m: Material, d: Delivery, targets: seq<Id>, run: Id, now: Time): (r: Queue)
    ensures r.runs == q.runs
  {
    if targets == [] then q
    else Insert(InsertDeploys(q, m, d, targets[..|targets| - 1], run, now),
                DeployJob(m, d, targets[|targets| - 1], run, now))
  }

  function OpenRun(q: Queue, m: Material, d: Delivery, total: nat): Queue {
    q.(runs := q.runs[q.nextId := Run(d.task, m.certificate, Some(m.version), RunQueued, total, 0, 0, None)],
       nextId := q.nextId + 1)
  }

  function PlannedJobs(d: Delivery): nat {
    if d.action == DeployAlb then |d.targets| else 1
  }

  function FillRun(q: Queue, m: Material, d: Delivery, run: Id, now: Time): (r: Queue)
    ensures r.runs == q.runs
  {
    if d.action == UploadSsl then Insert(q, UploadJob(m, d, run, now)) else InsertDeploys(q, m, d, d.targets, run, now)
  }

  /** One task: open a run, insert its jobs, and keep the run only if a job was really added. */
  function Deliver(q: Queue, m: Material, d: Delivery, now: Time): Queue {
    if PlannedJobs(d) == 0 then q
    else
      var run := q.nextId;
      var filled := FillRun(OpenRun(q, m, d, PlannedJobs(d)), m, d, run, now);
      var added := |Children(filled.jobs, run)|;
      if added == 0 then filled.(runs := filled.runs - {run})
      else filled.(runs := filled.runs[run := filled.runs[run].(total := added)])
  }

  function DeliverAll(q: Queue, m: Material, ds: seq<Delivery>, now: Time): Queue {
    if ds == [] then q else Deliver(DeliverAll(q, m, ds[..|ds| - 1], now), m, ds[|ds| - 1], now)
  }

  function FanOut(q: Queue, m: Material, legacy: seq<Id>, rows: seq<Joined>, now: Time): Queue {
    DeliverAll(InsertLegacy(q, m, legacy, now), m, GroupBy(rows), now)
  }

  ghost predicate Sound(q: Queue) {
    Fresh(q) && JobsKnowRuns(q)
  }

  // ---------- growth ----------

  lemma InsertGrows(q: Queue, j: Job, now: Time)
    requires Sound(q) && NewRow(j, now) && j.run == None
    ensures Grows(q, Insert(q, j), now) && Sound(Insert(q, j))
  {
  }

  lemma {:induction false} LegacyGrows(q: Queue, m: Material, targets: seq<Id>, now: Time)
    requires Sound(q)
    ensures Grows(q, InsertLegacy(q, m, targets, now), now) && Sound(InsertLegacy(q, m, targets, now))
  {
    if targets != [] {
      var before := InsertLegacy(q, m, targets[..|targets| - 1], now);
      LegacyGrows(q, m, targets[..|targets| - 1], now);
      InsertGrows(before, LegacyJob(m, targets[|targets| - 1], now), now);
      GrowsTransitively(q, before, InsertLegacy(q, m, targets, now), now);
    }
  }

  /** While a run is being filled: `q'` is `started` plus jobs of this run. */
  ghost predicate Filling(started: Queue, q': Queue, m: Material, d: Delivery, run: Id, now: Time) {
    && q'.runs == started.runs && q'.execs == started.execs && q'.challenges == started.challenges
    && started.nextId <= q'.nextId
    && (forall i | i in started.jobs :: i in q'.jobs && q'.jobs[i] == started.jobs[i])
    && (forall i | i in q'.jobs && i !in started.jobs ::
          started.nextId <= i < q'.nextId && q'.jobs[i].run == Some(run) && Expected(q'.jobs[i], m, d, now))
  }

  /** `j` is one of the jobs delivery `d` asks for. */
  predicate Expected(j: Job, m: Material, d: Delivery, now: Time) {
    && j.run.Some?
    && (|| (d.action == UploadSsl && j == UploadJob(m, d, j.run.value, now))
        || (d.action != UploadSsl && j.target.Some? && j.target.value in d.targets
            && j == DeployJob(m, d, j.target.value, j.run.value, now)))
  }

  lemma {:induction false} DeploysFill(started: Queue, m: Material, d: Delivery, targets: seq<Id>, run: Id, now: Time)
    requires Fresh(started) && d.action != UploadSsl && forall g | g in targets :: g in d.targets
    ensures var q' := InsertDeploys(started, m, d, targets, run, now); Filling(started, q', m, d, run, now) && Fresh(q')
  {
    if targets != [] {
      assert forall g | g in targets[..|targets| - 1] :: g in targets;
      DeploysFill(started, m, d, targets[..|targets| - 1], run, now);
    }
  }

  lemma FillFills(started: Queue, m: Material, d: Delivery, run: Id, now: Time)
    requires Fresh(started)
    ensures var q' := FillRun(started, m, d, run, now); Filling(started, q', m, d, run, now) && Fresh(q')
  {
    if d.action != UploadSsl {
      DeploysFill(started, m, d, d.targets, run, now);
    }
  }

  lemma DeliverGrows(q: Queue, m: Material, d: Delivery, now: Time)
    requires Sound(q)
    ensures var q' := Deliver(q, m, d, now);
            && Grows(q, q', now) && Sound(q')
            && forall i | i in q'.jobs && i !in q.jobs :: Expected(q'.jobs[i], m, d, now)
  {
    var run, started := q.nextId, OpenRun(q, m, d, PlannedJobs(d));
    if PlannedJobs(d) > 0 {
      var filled := FillRun(started, m, d, run, now);
      FillFills(started, m, d, run, now);
      if Children(filled.jobs, run) == {} {
        UnfilledRunLeavesNothing(q, started, filled, m, d, now);
      } else {
        FilledRunGrows(q, started, filled, m, d, now);
      }
    }
  }

  lemma UnfilledRunLeavesNothing(q: Queue, started: Queue, filled: Queue, m: Material, d: Delivery, now: Time)
    requires Sound(q) && started == OpenRun(q, m, d, PlannedJobs(d))
    requires Filling(started, filled, m, d, q.nextId, now) && Fresh(filled)
    requires Children(filled.jobs, q.nextId) == {}
    ensures var q' := filled.(runs := filled.runs - {q.nextId});
            Grows(q, q', now) && Sound(q') && q'.jobs == q.jobs && q'.runs == q.runs
  {
    assert filled.runs - {q.nextId} == q.runs;
    forall i | i in filled.jobs
      ensures i in q.jobs
    {
      assert i !in Children(filled.jobs, q.nextId);
    }
  }

  lemma FilledRunGrows(q: Queue, started: Queue, filled: Queue, m: Material, d: Delivery, now: Time)
    requires Sound(q) && started == OpenRun(q, m, d, PlannedJobs(d))
    requires Filling(started, filled, m, d, q.nextId, now) && Fresh(filled)
    requires Children(filled.jobs, q.nextId) != {}
    ensures var run := q.nextId;
            var q' := filled.(runs := filled.runs[run := filled.runs[run].(total := |Children(filled.jobs, run)|)]);
            && Grows(q, q', now) && Sound(q')
            && forall i | i in q'.jobs && i !in q.jobs :: Expected(q'.jobs[i], m, d, now)
  {
    var run := q.nextId;
    var q' := filled.(runs := filled.runs[run := filled.runs[run].(total := |Children(filled.jobs, run)|)]);
    forall i | i in q'.jobs && i !in q.jobs
      ensures NewJobOk(q, q', now, i)
    {
      FilledJobOk(q, started, filled, q', m, d, now, i);
    }
  }

  lemma FilledJobOk(q: Queue, started: Queue, filled: Queue, q': Queue, m: Material, d: Delivery, now: Time, i: Id)
    requires started == OpenRun(q, m, d, PlannedJobs(d)) && Filling(started, filled, m, d, q.nextId, now)
    requires q'.jobs == filled.jobs && q'.nextId == filled.nextId && i in filled.jobs && i !in q.jobs && q.nextId !in q.runs
    requires q.nextId in filled.runs && q.nextId in q'.runs && q'.runs[q.nextId].task == filled.runs[q.nextId].task
    ensures NewJobOk(q, q', now, i)
  {
    assert Expected(filled.jobs[i], m, d, now);
  }

  lemma {:induction false} DeliverAllGrows(q: Queue, m: Material, ds: seq<Delivery>, now: Time)
    requires Sound(q)
    ensures Grows(q, DeliverAll(q, m, ds, now), now) && Sound(DeliverAll(q, m, ds, now))
  {
    if ds != [] {
      var rest, d := ds[..|ds| - 1], ds[|ds| - 1];
      DeliverAllGrows(q, m, rest, now);
      DeliverGrows(DeliverAll(q, m, rest, now), m, d, now);
      GrowsTransitively(q, DeliverAll(q, m, rest, now), DeliverAll(q, m, ds, now), now);
    }
  }

  lemma {:induction false} DeliverAllExpected(q: Queue, m: Material, ds: seq<Delivery>, now: Time, i: Id) returns (n: nat)
    requires Sound(q) && i in DeliverAll(q, m, ds, now).jobs && i !in q.jobs
    ensures n < |ds| && Expected(DeliverAll(q, m, ds, now).jobs[i], m, ds[n], now)
  {
    var rest := ds[..|ds| - 1];
    var before := DeliverAll(q, m, rest, now);
    n := |ds| - 1;
    DeliverAllGrows(q, m, rest, now);
    DeliverGrows(before, m, ds[n], now);
    if i in before.jobs {
      n := DeliverAllExpected(q, m, rest, now, i);
    }
  }

  /** The runs a fan-out opens are runs of this certificate and version. */
  lemma {:induction false} DeliverAllRuns(q: Queue, m: Material, ds: seq<Delivery>, now: Time, r: Id)
    requires r in DeliverAll(q, m, ds, now).runs && r !in q.runs
    ensures var run := DeliverAll(q, m, ds, now).runs[r]; run.certificate == m.certificate && run.version == Some(m.version)
  {
    var before := DeliverAll(q, m, ds[..|ds| - 1], now);
    if r in before.runs {
      DeliverAllRuns(q, m, ds[..|ds| - 1], now, r);
    }
  }

  // ---------- exactness ----------

  function LegacyKeys(m: Material, targets: seq<Id>): set<(Scope, Key)> {
    set g | g in targets :: (TargetScope(g), ForVersion(m.version))
  }

  function DeployKeys(m: Material, task: Id, targets: seq<Id>): set<(Scope, Key)> {
    set g | g in targets :: (TaskScope(task), ForVersionAndTarget(m.version, g))
  }

  function DeliveryKeys(m: Material, d: Delivery): set<(Scope, Key)> {
    if d.action == UploadSsl then {(TaskScope(d.task), ForVersion(m.version))} else DeployKeys(m, d.task, d.targets)
  }

  function AllKeys(m: Material, ds: seq<Delivery>): set<(Scope, Key)> {
    if ds == [] then {} else AllKeys(m, ds[..|ds| - 1]) + DeliveryKeys(m, ds[|ds| - 1])
  }

  lemma {:induction false} LegacyInsertKeys(q: Queue, m: Material, targets: seq<Id>, now: Time, versions: set<Id>)
    requires Fresh(q) && KeysOk(q.jobs, versions) && m.version in versions
    ensures var q' := InsertLegacy(q, m, targets, now);
            Fresh(q') && KeysOk(q'.jobs, versions) && Keys(q'.jobs) == Keys(q.jobs) + LegacyKeys(m, targets)
  {
    if targets != [] {
      var rest := targets[..|targets| - 1];
      LegacyInsertKeys(q, m, rest, now, versions);
      InsertKeys(InsertLegacy(q, m, rest, now), LegacyJob(m, targets[|targets| - 1], now), versions);
      assert LegacyKeys(m, targets) == LegacyKeys(m, rest) + {(TargetScope(targets[|targets| - 1]), ForVersion(m.version))} by {
        assert targets == rest + [targets[|targets| - 1]];
      }
    }
  }

  lemma {:induction false} DeployInsertKeys(q: Queue, m: Material, d: Delivery, targets: seq<Id>, run: Id, now: Time, versions: set<Id>)
    requires Fresh(q) && KeysOk(q.jobs, versions) && m.version in versions
    ensures var q' := InsertDeploys(q, m, d, targets, run, now);
            Fresh(q') && KeysOk(q'.jobs, versions) && Keys(q'.jobs) == Keys(q.jobs) + DeployKeys(m, d.task, targets)
  {
    if targets != [] {
      var rest := targets[..|targets| - 1];
      DeployInsertKeys(q, m, d, rest, run, now, versions);
      InsertKeys(InsertDeploys(q, m, d, rest, run, now), DeployJob(m, d, targets[|targets| - 1], run, now), versions);
      assert DeployKeys(m, d.task, targets)
             == DeployKeys(m, d.task, rest) + {(TaskScope(d.task), ForVersionAndTarget(m.version, targets[|targets| - 1]))} by {
        assert targets == rest + [targets[|targets| - 1]];
      }
    }
  }

  lemma DeliverKeys(q: Queue, m: Material, d: Delivery, now: Time, versions: set<Id>)
    requires Fresh(q) && KeysOk(q.jobs, versions) && m.version in versions && d.action in {UploadSsl, DeployAlb}
    ensures var q' := Deliver(q, m, d, now);
            KeysOk(q'.jobs, versions) && Keys(q'.jobs) == Keys(q.jobs) + DeliveryKeys(m, d)
  {
    var started := OpenRun(q, m, d, PlannedJobs(d));
    if PlannedJobs(d) > 0 {
      if d.action == UploadSsl {
        InsertKeys(started, UploadJob(m, d, q.nextId, now), versions);
      } else {
        DeployInsertKeys(started, m, d, d.targets, q.nextId, now, versions);
      }
    }
  }

  lemma {:induction false} DeliverAllKeys(q: Queue, m: Material, ds: seq<Delivery>, now: Time, versions: set<Id>)
    requires Sound(q) && KeysOk(q.jobs, versions) && m.version in versions
    requires forall d | d in ds :: d.action in {UploadSsl, DeployAlb}
    ensures var q' := DeliverAll(q, m, ds, now);
            KeysOk(q'.jobs, versions) && Keys(q'.jobs) == Keys(q.jobs) + AllKeys(m, ds)
  {
    if ds != [] {
      var rest := ds[..|ds| - 1];
      DeliverAllKeys(q, m, rest, now, versions);
      DeliverAllGrows(q, m, rest, now);
      DeliverKeys(DeliverAll(q, m, rest, now), m, ds[|ds| - 1], now, versions);
    }
  }

  lemma {:induction false} AllKeysAre(m: Material, ds: seq<Delivery>)
    ensures forall n | 0 <= n < |ds| :: DeliveryKeys(m, ds[n]) <= AllKeys(m, ds)
    ensures forall k | k in AllKeys(m, ds) :: exists n :: 0 <= n < |ds| && k in DeliveryKeys(m, ds[n])
    ensures forall k | k in AllKeys(m, ds) :: OfVersion(k.1, m.version)
  {
    if ds != [] {
      var rest := ds[..|ds| - 1];
      AllKeysAre(m, rest);
      forall n | 0 <= n < |ds|
        ensures DeliveryKeys(m, ds[n]) <= AllKeys(m, ds)
      {
        assert n < |rest| ==> rest[n] == ds[n];
      }
      forall k | k in AllKeys(m, ds)
        ensures exists n :: 0 <= n < |ds| && k in DeliveryKeys(m, ds[n])
      {
        if k in AllKeys(m, rest) {
          var n :| 0 <= n < |rest| && k in DeliveryKeys(m, rest[n]);
          assert k in DeliveryKeys(m, ds[n]);
        } else {
          assert k in DeliveryKeys(m, ds[|ds| - 1]);
        }
      }
    }
  }

  predicate OfVersion(key: Key, version: Id) {
    (key.ForVersion? || key.ForVersionAndTarget?) && key.version == version
  }

  function NewWith(q: Queue, q': Queue, k: (Scope, Key)): set<Id> {
    set i | i in q'.jobs && i !in q.jobs && (q'.jobs[i].scope, q'.jobs[i].key) == k
  }

  lemma FanOutGrows(q: Queue, m: Material, legacy: seq<Id>, rows: seq<Joined>, now: Time)
    requires Sound(q)
    ensures Grows(q, FanOut(q, m, legacy, rows, now), now) && Sound(FanOut(q, m, legacy, rows, now))
  {
    var first := InsertLegacy(q, m, legacy, now);
    LegacyGrows(q, m, legacy, now);
    DeliverAllGrows(first, m, GroupBy(rows), now);
    GrowsTransitively(q, first, FanOut(q, m, legacy, rows, now), now);
  }

  lemma FanOutKeys(q: Queue, m: Material, legacy: seq<Id>, rows: seq<Joined>, now: Time, versions: set<Id>)
    requires Sound(q) && KeysOk(q.jobs, versions) && m.version in versions
    requires forall n | 0 <= n < |rows| :: rows[n].action in {UploadSsl, DeployAlb}
    ensures var q' := FanOut(q, m, legacy, rows, now);
            && KeysOk(q'.jobs, versions)
            && Keys(q'.jobs) == Keys(q.jobs) + (LegacyKeys(m, legacy) + AllKeys(m, GroupBy(rows)))
  {
    GroupActions(rows);
    LegacyGrows(q, m, legacy, now);
    LegacyInsertKeys(q, m, legacy, now, versions);
    DeliverAllKeys(InsertLegacy(q, m, legacy, now), m, GroupBy(rows), now, versions);
  }

  /** The new jobs are, one for one, the legacy targets and what the grouped tasks ask for; the
      version being new, no earlier job can stand in for one of them. */
  lemma FanOutIsExact(q: Queue, m: Material, legacy: seq<Id>, rows: seq<Joined>, now: Time, versions: set<Id>, k: (Scope, Key))
    requires Sound(q) && KeysOk(q.jobs, versions) && m.version !in versions
    requires forall n | 0 <= n < |rows| :: rows[n].action in {UploadSsl, DeployAlb}
    ensures var q' := FanOut(q, m, legacy, rows, now);
            |NewWith(q, q', k)| == if k in LegacyKeys(m, legacy) + AllKeys(m, GroupBy(rows)) then 1 else 0
  {
    FanOutGrows(q, m, legacy, rows, now);
    FanOutKeys(q, m, legacy, rows, now, versions + {m.version});
    AllKeysAre(m, GroupBy(rows));
    OneForOne(q, FanOut(q, m, legacy, rows, now), versions, m.version, LegacyKeys(m, legacy) + AllKeys(m, GroupBy(rows)), k);
  }

  lemma OneForOne(q: Queue, q': Queue, versions: set<Id>, version: Id, wanted: set<(Scope, Key)>, k: (Scope, Key))
    requires KeysOk(q.jobs, versions) && version !in versions && KeysOk(q'.jobs, versions + {version})
    requires forall i | i in q.jobs :: i in q'.jobs && q'.jobs[i] == q.jobs[i]
    requires Keys(q'.jobs) == Keys(q.jobs) + wanted && forall x | x in wanted :: OfVersion(x.1, version)
    ensures |NewWith(q, q', k)| == if k in wanted then 1 else 0
  {
    if k in wanted {
      assert k in Keys(q'.jobs);
      var i :| i in q'.jobs && k == (q'.jobs[i].scope, q'.jobs[i].key);
      assert NewWith(q, q', k) == {i};
    } else {
      forall i | i in q'.jobs && (q'.jobs[i].scope, q'.jobs[i].key) == k
        ensures i in q.jobs
      {
        assert k in Keys(q'.jobs);
        var o :| o in q.jobs && k == (q.jobs[o].scope, q.jobs[o].key);
        assert q'.jobs[o] == q.jobs[o];
      }
      assert NewWith(q, q', k) == {};
    }
  }

  lemma GroupActions(rows: seq<Joined>)
    requires forall n | 0 <= n < |rows| :: rows[n].action in {UploadSsl, DeployAlb}
    ensures forall d | d in GroupBy(rows) :: d.action in {UploadSsl, DeployAlb}
  {
    forall n | 0 <= n < |GroupBy(rows)|
      ensures GroupBy(rows)[n].action in {UploadSsl, DeployAlb}
    {
      FirstRowIsARow(rows, TaskIds(rows)[n]);
    }
  }

  lemma {:induction false} FirstRowIsARow(rows: seq<Joined>, t: Id)
    requires t in TaskIds(rows)
    ensures FirstRow(rows, t) in rows && FirstRow(rows, t).task == t
  {
    var before := rows[..|rows| - 1];
    if t in TaskIds(before) {
      FirstRowIsARow(before, t);
    }
  }
}
