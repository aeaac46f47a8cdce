/** The whole job engine: shared tables, one clock, and any number of sequential workers. */
module System {
  import opened Rows
  import opened Policy
  import Engine

  /** `workers` maps a busy worker to the one claim it holds; every other worker is idle.
      `latest`, `approvals` and `backoff` are history: the execution of a job's last claim, how
      often the user requeued it, and the sum of the delays it was given. */
  datatype Sys = Sys(
    q: Queue, now: Time, workers: map<Id, Claim>,
    latest: map<Id, Id>, approvals: map<Id, nat>, backoff: map<Id, Time>)

  datatype Step =
    | Advance(to: Time)
    | Recover(ids: seq<Id>)
    | Take(worker: Id, id: Id)
    | Finish(worker: Id, result: HandlerResult)
    | Abandon(worker: Id)
    | Present(worker: Id)
    | Confirm(certificate: Id, job: Id)
    | Cancel(task: Id)
    | Insert(batch: Engine.Batch)

  function Initial(now: Time): Sys {
    Sys(Queue(map[], map[], map[], map[], 0), now, map[], map[], map[], map[])
  }

  ghost predicate Enabled(s: Sys, step: Step) {
    match step
    case Advance(to) => s.now <= to
    case Recover(ids) => Engine.ListsExpired(s.q.jobs, s.now, ids)
    case Take(w, id) => w !in s.workers && Engine.IsNext(s.q.jobs, s.now, id)
    case Finish(w, _) => w in s.workers
    case Abandon(w) => w in s.workers
    case Present(w) => w in s.workers && s.workers[w].certificate.Some?
    case Confirm(c, job) => Engine.IsLatestWaiting(s.q.challenges, c, job)
    case Cancel(_) => true
    case Insert(b) => Engine.GoodBatch(s.q, s.now, b)
  }

  /** The finishing transaction a worker picks for a handler result; None is an error return. */
  function FinishTx(q: Queue, now: Time, c: Claim, w: Id, result: HandlerResult): Option<Queue> {
    if result.Returned? then Engine.CompleteJob(q, now, c, w)
    else
      var f := ToFailure(result);
      match PlanFor(f, c.attempt, c.maxAttempts)
      case PlanWait => Engine.MarkWaiting(q, now, c, w, HandlerCode(f.code))
      case PlanFail(retry) => Engine.FailJob(q, now, c, w, HandlerCode(f.code), retry)
  }

  function RetryOf(c: Claim, result: HandlerResult): Option<Time> {
    if result.Returned? then None
    else match PlanFor(ToFailure(result), c.attempt, c.maxAttempts)
         case PlanWait => None
         case PlanFail(retry) => retry
  }

  function Get(m: map<Id, int>, i: Id): int {
    if i in m then m[i] else 0
  }

  function AddRecovered(q: Queue, backoff: map<Id, Time>, ids: seq<Id>): map<Id, Time>
    requires forall i | i in ids :: i in q.jobs
  {
    backoff + map i | i in ids && q.jobs[i].attempt < q.jobs[i].maxAttempts :: Get(backoff, i) + RetryDelay(1)
  }

  function Next(s: Sys, step: Step): Sys
    requires Enabled(s, step)
  {
    match step
    case Advance(to) => s.(now := to)
    case Recover(ids) =>
      s.(q := Engine.RecoverJobs(s.q, s.now, RetryDelay(1), ids), backoff := AddRecovered(s.q, s.backoff, ids))
    case Take(w, id) =>
      var q := Engine.ClaimJob(s.q, s.now, w, LEASE_DURATION, id);
      s.(q := q,
         workers := s.workers[w := Engine.ClaimOf(q.jobs[id], id, s.q.nextId, s.now + LEASE_DURATION)],
         latest := s.latest[id := s.q.nextId])
    case Finish(w, result) =>
      var c := s.workers[w];
      var s1 := s.(workers := s.workers - {w});
      (match FinishTx(s.q, s.now, c, w, result)
       case None => s1
       case Some(q) =>
         var retry := RetryOf(c, result);
         s1.(q := q, backoff := if retry.Some? then s.backoff[c.job := Get(s.backoff, c.job) + retry.value] else s.backoff))
    case Abandon(w) => s.(workers := s.workers - {w})
    case Present(w) =>
      var c := s.workers[w];
      s.(q := Engine.SaveChallenge(s.q, s.now, c.job, c.certificate.value))
    case Confirm(_, job) =>
      s.(q := Engine.Approve(s.q, s.now, job),
         approvals := if job in s.q.jobs && s.q.jobs[job].status == WaitingUser
                      then s.approvals[job := Get(s.approvals, job) + 1] else s.approvals)
    case Cancel(task) => s.(q := Engine.CancelTask(s.q, s.now, task))
    case Insert(b) => s.(q := Engine.Enqueue(s.q, b))
  }

  /** Each step is enabled where it is taken. */
  ghost predicate Valid(s: Sys, steps: seq<Step>)
    decreases |steps|
  {
    steps == [] || (Enabled(s, steps[0]) && Valid(Next(s, steps[0]), steps[1..]))
  }

  ghost function After(s: Sys, steps: seq<Step>): Sys
    requires Valid(s, steps)
    decreases |steps|
  {
    if steps == [] then s else After(Next(s, steps[0]), steps[1..])
  }
}
