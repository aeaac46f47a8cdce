/** When a job that was put back may run again: laws about the times of steps. */
module RetryTimes {
  import opened Rows
  import opened Policy
  import opened System
  import opened Engine
  import opened Invariant
  import opened Preservation
  import opened EngineTheorems
  import opened Evolution

  /** Until `due` the job is queued for later, or over. */
  ghost predicate Waits(s: Sys, i: Id, due: Time) {
    && i in s.q.jobs
    && (s.now < due ==> Terminal(s.q.jobs[i].status) || (s.q.jobs[i].status == Queued && s.q.jobs[i].nextRunAt >= due))
  }

  lemma RowWaitsOn(j: Job, j': Job, now: Time, change: Change, due: Time)
    requires Changes(j, j', now, change) && change != Claims
    requires Terminal(j.status) || (j.status == Queued && j.nextRunAt >= due)
    ensures Terminal(j'.status) || (j'.status == Queued && j'.nextRunAt >= due)
  {
  }

  /** A claim finds the job due, and time never runs backwards. */
  lemma ClaimsWhenDue(s: Sys, step: Step, i: Id)
    requires Enabled(s, step) && i in s.q.jobs
    ensures s.now <= Next(s, step).now
    ensures ChangeOf(s, step, i) == Claims <==> step.Take? && step.id == i
    ensures step.Take? && step.id == i ==> s.q.jobs[i].status == Queued && s.q.jobs[i].nextRunAt <= s.now
  {
  }

  lemma WaitsOn(s: Sys, step: Step, i: Id, due: Time)
    requires Inv(s) && Enabled(s, step) && Waits(s, i, due)
    ensures Waits(Next(s, step), i, due)
    ensures step.Take? && step.id == i ==> s.now >= due
  {
    StepChanges(s, step, i);
    ClaimsWhenDue(s, step, i);
    if s.now < due {
      RowWaitsOn(s.q.jobs[i], Next(s, step).q.jobs[i], s.now, ChangeOf(s, step, i), due);
    }
  }

  lemma {:induction false} WaitsThroughout(s: Sys, steps: seq<Step>, i: Id, due: Time)
    requires Inv(s) && Valid(s, steps) && Waits(s, i, due)
    ensures Waits(After(s, steps), i, due)
    decreases |steps|
  {
    if steps != [] {
      WaitsOn(s, steps[0], i, due);
      StepKeeps(s, steps[0]);
      WaitsThroughout(Next(s, steps[0]), steps[1..], i, due);
    }
  }

  lemma ClaimedOnceDue(s: Sys, i: Id, due: Time, v: Id)
    requires Waits(s, i, due) && Enabled(s, Take(v, i))
    ensures s.now >= due
  {
  }

  lemma WaitingAfter(s: Sys, step: Step, steps: seq<Step>, i: Id, due: Time)
    requires Inv(s) && Enabled(s, step) && Valid(Next(s, step), steps)
    ensures Waits(Next(s, step), i, due) ==> Waits(After(Next(s, step), steps), i, due)
  {
    if Waits(Next(s, step), i, due) {
      StepKeeps(s, step);
      WaitsThroughout(Next(s, step), steps, i, due);
    }
  }

  // ---------- retries ----------

  /** This finish puts job `i` back for `delay`. */
  predicate Retries(s: Sys, w: Id, result: HandlerResult, i: Id, delay: Time) {
    && w in s.workers && s.workers[w].job == i && HoldsLease(s.q.jobs, i, w)
    && RetryOf(s.workers[w], result) == Some(delay)
  }

  lemma RetriedTable(s: Sys, w: Id, result: HandlerResult)
    requires Inv(s) && w in s.workers && HoldsLease(s.q.jobs, s.workers[w].job, w)
    ensures Next(s, Finish(w, result)).q.jobs == JobsAfterFinish(s.q.jobs, s.now, w, s.workers[w], result)
  {
    HeldClaim(s, w);
    HeldFinish(s.q, s.now, s.workers[w], w, result);
    FinishInState(s, w, result);
  }

  lemma RetriedRow(s: Sys, w: Id, result: HandlerResult, i: Id, delay: Time)
    requires Inv(s) && Retries(s, w, result, i, delay)
    ensures var s' := Next(s, Finish(w, result));
            && i in s'.q.jobs && s'.q.jobs[i].status == Queued && !s'.q.jobs[i].cancelRequested
            && s'.q.jobs[i].nextRunAt == s.now + delay
            && s'.now == s.now && s'.workers == s.workers - {w}
            && forall k | k in s'.q.jobs && k != i :: k in s.q.jobs && s'.q.jobs[k] == s.q.jobs[k]
  {
    RetriedTable(s, w, result);
    HeldClaim(s, w);
    RetriedIn(s.q.jobs, s.now, w, s.workers[w], result, i, delay);
    FinishLetsGo(s, w, result);
  }

  lemma RetriedIn(jobs: map<Id, Job>, now: Time, w: Id, c: Claim, result: HandlerResult, i: Id, delay: Time)
    requires c.job == i && HoldsLease(jobs, i, w) && RowShape(jobs[i]) && RetryOf(c, result) == Some(delay)
    ensures var jobs' := JobsAfterFinish(jobs, now, w, c, result);
            && i in jobs' && jobs'[i].status == Queued && !jobs'[i].cancelRequested && jobs'[i].nextRunAt == now + delay
            && forall k | k in jobs' && k != i :: k in jobs && jobs'[k] == jobs[k]
  {
  }

  lemma FinishLetsGo(s: Sys, w: Id, result: HandlerResult)
    requires w in s.workers
    ensures Next(s, Finish(w, result)).now == s.now && Next(s, Finish(w, result)).workers == s.workers - {w}
  {
  }

  /** When the delay is over and nothing else is queued, the job is the next to be claimed. */
  lemma RetryComesDue(s: Sys, w: Id, result: HandlerResult, i: Id, delay: Time)
    requires Inv(s) && Retries(s, w, result, i, delay) && forall k | k in s.q.jobs :: s.q.jobs[k].status != Queued
    ensures IsNext(Next(s, Finish(w, result)).q.jobs, s.now + delay, i)
  {
    RetriedRow(s, w, result, i, delay);
    OnlyOneIsNext(Next(s, Finish(w, result)).q.jobs, s.now + delay, i);
  }

  lemma OnlyOneIsNext(jobs: map<Id, Job>, now: Time, i: Id)
    requires i in jobs && jobs[i].status == Queued && !jobs[i].cancelRequested && jobs[i].nextRunAt <= now
    requires forall k | k in jobs && k != i :: jobs[k].status != Queued
    ensures IsNext(jobs, now, i)
  {
  }

  // ---------- recovery ----------

  lemma RecoveredRows(s: Sys, ids: seq<Id>, i: Id)
    requires Enabled(s, Recover(ids)) && i in ids
    ensures var s' := Next(s, Recover(ids));
            && i in s'.q.jobs && s'.now == s.now
            && if s.q.jobs[i].attempt >= s.q.jobs[i].maxAttempts then s'.q.jobs[i].status == Failed
               else s'.q.jobs[i].status == Queued && s'.q.jobs[i].nextRunAt == s.now + MINUTE
  {
    RecoveryIsOneUpdate(s.q, s.now, RetryDelay(1), ids);
  }

  // ---------- both ----------

  /** The step puts job `i` back for `delay`: a finish that retries it, or the recovery of its lease,
      which waits a minute. */
  ghost predicate PutsBack(s: Sys, step: Step, i: Id, delay: Time)
    requires Enabled(s, step)
  {
    match step
    case Finish(w, result) => Retries(s, w, result, i, delay)
    case Recover(ids) => i in ids && delay == MINUTE
    case _ => false
  }

  lemma PutBackWaits(s: Sys, step: Step, i: Id, delay: Time)
    requires Inv(s) && Enabled(s, step) && PutsBack(s, step, i, delay)
    ensures Waits(Next(s, step), i, s.now + delay)
  {
    match step
    case Finish(w, result) => RetriedRow(s, w, result, i, delay);
    case Recover(ids) => RecoveredRows(s, ids, i);
  }

  /** A job put back for `delay` is not claimed by anybody before that time has passed, whatever else
      happens meanwhile. */
  lemma PutBackIsNotClaimed(s: Sys, step: Step, i: Id, delay: Time, steps: seq<Step>, v: Id)
    requires Inv(s) && Enabled(s, step) && PutsBack(s, step, i, delay) && Valid(Next(s, step), steps)
    requires Enabled(After(Next(s, step), steps), Take(v, i))
    ensures After(Next(s, step), steps).now >= s.now + delay
  {
    PutBackWaits(s, step, i, delay);
    WaitingAfter(s, step, steps, i, s.now + delay);
    ClaimedOnceDue(After(Next(s, step), steps), i, s.now + delay, v);
  }

  // ---------- the recorded backoff ----------

  /** How long step `step` makes job `i` wait. */
  function Wait(s: Sys, step: Step, i: Id): Time
    requires Enabled(s, step) && i in s.q.jobs && i in Next(s, step).q.jobs
  {
    if ChangeOf(s, step, i) == Change.Retries then Next(s, step).q.jobs[i].nextRunAt - s.now else 0
  }

  lemma OtherFinish(s: Sys, w: Id, result: HandlerResult, i: Id)
    requires w in s.workers && i in s.q.jobs && ChangeOf(s, Finish(w, result), i) != Change.Retries
    ensures Get(Next(s, Finish(w, result)).backoff, i) == Get(s.backoff, i)
  {
  }

  lemma RetriesIff(s: Sys, w: Id, result: HandlerResult, i: Id)
    requires w in s.workers && i in s.q.jobs && ChangeOf(s, Finish(w, result), i) == Change.Retries
    ensures RetryOf(s.workers[w], result).Some? && Retries(s, w, result, i, RetryOf(s.workers[w], result).value)
    ensures Get(Next(s, Finish(w, result)).backoff, i) == Get(s.backoff, i) + RetryOf(s.workers[w], result).value
  {
  }

  lemma RecoveredBackoff(s: Sys, ids: seq<Id>, i: Id)
    requires Enabled(s, Recover(ids)) && i in s.q.jobs
    ensures i in Next(s, Recover(ids)).q.jobs
    ensures Get(Next(s, Recover(ids)).backoff, i) == Get(s.backoff, i) + Wait(s, Recover(ids), i)
  {
    RecoveryIsOneUpdate(s.q, s.now, RetryDelay(1), ids);
  }

  lemma FinishedBackoff(s: Sys, w: Id, result: HandlerResult, i: Id)
    requires w in s.workers && i in s.q.jobs && i in Next(s, Finish(w, result)).q.jobs && Inv(s)
    ensures Get(Next(s, Finish(w, result)).backoff, i) == Get(s.backoff, i) + Wait(s, Finish(w, result), i)
  {
    if ChangeOf(s, Finish(w, result), i) == Change.Retries {
      RetriesIff(s, w, result, i);
      RetriedRow(s, w, result, i, RetryOf(s.workers[w], result).value);
    } else {
      OtherFinish(s, w, result, i);
    }
  }

  lemma OtherBackoff(s: Sys, step: Step, i: Id)
    requires Enabled(s, step) && i in s.q.jobs && i in Next(s, step).q.jobs && !step.Finish? && !step.Recover?
    ensures Get(Next(s, step).backoff, i) == Get(s.backoff, i) + Wait(s, step, i)
  {
  }

  /** The recorded backoff of a job is exactly the time its retries have made it wait. */
  lemma BackoffIsTheWait(s: Sys, step: Step, i: Id)
    requires Enabled(s, step) && i in s.q.jobs && Inv(s)
    ensures i in Next(s, step).q.jobs && Get(Next(s, step).backoff, i) == Get(s.backoff, i) + Wait(s, step, i)
  {
    StepChanges(s, step, i);
    match step
    case Finish(w, result) => FinishedBackoff(s, w, result, i);
    case Recover(ids) => RecoveredBackoff(s, ids, i);
    case _ => OtherBackoff(s, step, i);
  }
}
