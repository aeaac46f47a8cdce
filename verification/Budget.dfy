/** Attempts, state changes and backoff of a job are bounded over its whole life. */
module Budget {
  import opened Rows
  import opened Policy
  import opened System
  import opened Engine
  import opened Invariant
  import opened Preservation
  import opened EngineTheorems
  import opened Evolution

  // ---------- attempts ----------

  predicate WithinBudget(j: Job, approvals: int) {
    && approvals >= 0 && j.maxAttempts == 5
    && j.attempt <= j.maxAttempts + approvals
    && (j.status == Queued ==> j.attempt < j.maxAttempts + approvals)
  }

  ghost predicate BudgetInv(s: Sys) {
    && (forall i | i in s.q.jobs :: WithinBudget(s.q.jobs[i], Get(s.approvals, i)))
    && s.backoff.Keys <= s.q.jobs.Keys
  }

  lemma ApprovalsCount(s: Sys, step: Step, i: Id)
    requires Enabled(s, step) && i in s.q.jobs
    ensures Get(Next(s, step).approvals, i)
            == Get(s.approvals, i) + (if ChangeOf(s, step, i) == Resumes then 1 else 0)
  {
  }

  lemma BudgetStep(s: Sys, step: Step)
    requires Inv(s) && Enabled(s, step) && BudgetInv(s)
    ensures BudgetInv(Next(s, step))
  {
    var s' := Next(s, step);
    forall i | i in s'.q.jobs
      ensures WithinBudget(s'.q.jobs[i], Get(s'.approvals, i))
    {
      if i in s.q.jobs {
        StepChanges(s, step, i);
        ApprovalsCount(s, step, i);
      } else {
        NewJobIsInserted(s, step, i);
      }
    }
    JobsOnlyGrow(s, step);
    BackoffKeys(s, step);
  }

  lemma JobsOnlyGrow(s: Sys, step: Step)
    requires Inv(s) && Enabled(s, step)
    ensures s.q.jobs.Keys <= Next(s, step).q.jobs.Keys
  {
    forall i | i in s.q.jobs {
      StepChanges(s, step, i);
    }
  }

  lemma NewJobIsInserted(s: Sys, step: Step, i: Id)
    requires Inv(s) && Enabled(s, step) && i in Next(s, step).q.jobs && i !in s.q.jobs
    ensures step.Insert? && NewRow(Next(s, step).q.jobs[i], s.now) && Get(Next(s, step).approvals, i) >= 0
  {
    if step.Finish? {
      FinishInState(s, step.worker, step.result);
    }
  }

  lemma BackoffKeys(s: Sys, step: Step)
    requires Inv(s) && Enabled(s, step)
    ensures Next(s, step).backoff.Keys <= s.backoff.Keys + s.q.jobs.Keys
  {
    if step.Finish? {
      FinishInState(s, step.worker, step.result);
    }
  }

  lemma {:induction false} BudgetRun(s: Sys, steps: seq<Step>)
    requires Inv(s) && BudgetInv(s) && Valid(s, steps)
    ensures BudgetInv(After(s, steps))
    decreases |steps|
  {
    if steps != [] {
      BudgetStep(s, steps[0]);
      StepKeeps(s, steps[0]);
      BudgetRun(Next(s, steps[0]), steps[1..]);
    }
  }

  /** A job is attempted at most five times, plus once per approval of the user. */
  lemma AttemptBudget(s: Sys, i: Id)
    requires Reachable(s) && i in s.q.jobs
    ensures s.q.jobs[i].attempt <= s.q.jobs[i].maxAttempts + Get(s.approvals, i)
    ensures s.q.jobs[i].maxAttempts == 5
  {
    var start, steps :| Valid(Initial(start), steps) && After(Initial(start), steps) == s;
    BudgetRun(Initial(start), steps);
  }

  // ---------- termination ----------

  /** Lexicographic in the attempts left and the status, folded into one number. */
  function Weight(j: Job, approvals: int): int {
    var left := 2 * (j.maxAttempts + approvals - j.attempt);
    match j.status
    case Queued => left
    case Running => left + 1
    case WaitingUser => left
    case _ => 0
  }

  lemma WeightOfChange(j: Job, j': Job, now: Time, change: Change, approvals: int)
    requires SameIdentity(j, j') && Changes(j, j', now, change) && WithinBudget(j, approvals)
    ensures var w, w' := Weight(j, approvals), Weight(j', approvals + if change == Resumes then 1 else 0);
            && w >= 0
            && (change == Stays ==> w' == w)
            && (change == Resumes ==> w' == w + 2)
            && (change !in {Stays, Resumes} ==> 0 <= w' < w)
  {
  }

  /** Every change of a row lowers its weight; only an approval adds to it. */
  lemma WeightDrops(s: Sys, step: Step, i: Id)
    requires Inv(s) && BudgetInv(s) && Enabled(s, step) && i in s.q.jobs
    ensures var s', change := Next(s, step), ChangeOf(s, step, i);
            && i in s'.q.jobs
            && var w, w' := Weight(s.q.jobs[i], Get(s.approvals, i)), Weight(s'.q.jobs[i], Get(s'.approvals, i));
            && w >= 0 && w' >= 0
            && (change == Stays ==> w' == w)
            && (change == Resumes ==> w' == w + 2)
            && (change !in {Stays, Resumes} ==> w' < w)
  {
    StepChanges(s, step, i);
    ApprovalsCount(s, step, i);
    WeightOfChange(s.q.jobs[i], Next(s, step).q.jobs[i], s.now, ChangeOf(s, step, i), Get(s.approvals, i));
  }

  /** How often the row of job `i` changes along a run. */
  ghost function ChangeCount(s: Sys, steps: seq<Step>, i: Id): nat
    requires Inv(s) && Valid(s, steps) && i in s.q.jobs
    decreases |steps|
  {
    if steps == [] then 0
    else
      StepChanges(s, steps[0], i);
      StepKeeps(s, steps[0]);
      (if ChangeOf(s, steps[0], i) == Stays then 0 else 1) + ChangeCount(Next(s, steps[0]), steps[1..], i)
  }

  /** In any run, of any length, a job changes at most its weight plus three times per approval:
      claims, finishes and recoveries of a job cannot go on for ever. */
  lemma {:induction false} ChangesAreBounded(s: Sys, steps: seq<Step>, i: Id)
    requires Inv(s) && BudgetInv(s) && Valid(s, steps) && i in s.q.jobs
    ensures ChangeCount(s, steps, i)
            <= Weight(s.q.jobs[i], Get(s.approvals, i)) + 3 * (Get(After(s, steps).approvals, i) - Get(s.approvals, i))
    decreases |steps|
  {
    WeightDrops(s, Advance(s.now), i);
    if steps != [] {
      WeightDrops(s, steps[0], i);
      ApprovalsCount(s, steps[0], i);
      BudgetStep(s, steps[0]);
      StepKeeps(s, steps[0]);
      ChangesAreBounded(Next(s, steps[0]), steps[1..], i);
    }
  }

  // ---------- backoff ----------

  /** Handlers of this code base always leave the delay to the schedule. */
  predicate UsesSchedule(step: Step) {
    step.Finish? && step.result.Classified? ==> step.result.failure.retryAfter <= 0
  }

  function Scheduled(attempts: nat): Time {
    if attempts == 0 then 0 else Scheduled(attempts - 1) + RetryDelay(attempts)
  }

  function Closed(j: Job): nat {
    var n := if j.status == Running && j.attempt > 0 then j.attempt - 1 else j.attempt;
    if n < j.maxAttempts then n else if j.maxAttempts > 0 then j.maxAttempts - 1 else 0
  }

  ghost predicate BackoffInv(s: Sys) {
    forall i | i in s.q.jobs :: Get(s.backoff, i) <= Scheduled(Closed(s.q.jobs[i]))
  }

  lemma {:induction false} ScheduledMonotone(a: nat, b: nat)
    requires a <= b
    ensures Scheduled(a) <= Scheduled(b)
  {
    if a < b {
      ScheduledMonotone(a, b - 1);
    }
  }

  /** A step adds to a job's backoff only by requeueing it, and never more than the schedule says. */
  lemma BackoffGrowth(s: Sys, step: Step, i: Id)
    requires Inv(s) && Enabled(s, step) && UsesSchedule(step) && i in s.q.jobs
    ensures Get(Next(s, step).backoff, i)
            <= Get(s.backoff, i) + (if ChangeOf(s, step, i) == Retries then RetryDelay(s.q.jobs[i].attempt) else 0)
  {
    if step.Finish? {
      FinishInState(s, step.worker, step.result);
      FinishBackoff(s, step.worker, step.result, i);
    }
  }

  lemma FinishBackoff(s: Sys, w: Id, result: HandlerResult, i: Id)
    requires w in s.workers && UsesSchedule(Finish(w, result)) && i in s.q.jobs
    requires var c := s.workers[w]; c.job in s.q.jobs && ClaimRow(s.q.jobs[c.job], s.now, w, c)
    ensures Get(Next(s, Finish(w, result)).backoff, i)
            <= Get(s.backoff, i) + (if ChangeOf(s, Finish(w, result), i) == Retries then RetryDelay(s.q.jobs[i].attempt) else 0)
  {
  }

  lemma OldBackoff(s: Sys, step: Step, i: Id)
    requires Inv(s) && Enabled(s, step) && UsesSchedule(step)
    requires i in s.q.jobs && Get(s.backoff, i) <= Scheduled(Closed(s.q.jobs[i]))
    ensures i in Next(s, step).q.jobs
    ensures Get(Next(s, step).backoff, i) <= Scheduled(Closed(Next(s, step).q.jobs[i]))
  {
    StepChanges(s, step, i);
    BackoffGrowth(s, step, i);
    assert RowShape(s.q.jobs[i]);
    ChangeKeepsSchedule(s.q.jobs[i], Next(s, step).q.jobs[i], s.now, ChangeOf(s, step, i));
  }

  lemma ChangeKeepsSchedule(j: Job, j': Job, now: Time, change: Change)
    requires RowShape(j) && SameIdentity(j, j') && Changes(j, j', now, change)
    ensures Scheduled(Closed(j)) + (if change == Retries then RetryDelay(j.attempt) else 0) <= Scheduled(Closed(j'))
  {
    ScheduledMonotone(Closed(j), Closed(j'));
  }

  lemma BackoffAt(s: Sys, step: Step, i: Id)
    requires Inv(s) && BudgetInv(s) && BackoffInv(s) && Enabled(s, step) && UsesSchedule(step)
    requires i in Next(s, step).q.jobs
    ensures Get(Next(s, step).backoff, i) <= Scheduled(Closed(Next(s, step).q.jobs[i]))
  {
    if i in s.q.jobs {
      OldBackoff(s, step, i);
    } else {
      NewJobIsInserted(s, step, i);
    }
  }

  lemma {:induction false} BackoffRun(s: Sys, steps: seq<Step>)
    requires Inv(s) && BudgetInv(s) && BackoffInv(s) && Valid(s, steps)
    requires forall step | step in steps :: UsesSchedule(step)
    ensures BackoffInv(After(s, steps))
    decreases |steps|
  {
    if steps != [] {
      forall i | i in Next(s, steps[0]).q.jobs {
        BackoffAt(s, steps[0], i);
      }
      BudgetStep(s, steps[0]);
      StepKeeps(s, steps[0]);
      BackoffRun(Next(s, steps[0]), steps[1..]);
    }
  }

  /** All the delays a job is ever given add up to at most 81 minutes, approvals included. */
  lemma TotalBackoff(start: Time, steps: seq<Step>, i: Id)
    requires Valid(Initial(start), steps) && i in After(Initial(start), steps).q.jobs
    requires forall step | step in steps :: UsesSchedule(step)
    ensures Get(After(Initial(start), steps).backoff, i) <= 81 * MINUTE
  {
    var s := After(Initial(start), steps);
    BackoffRun(Initial(start), steps);
    BudgetRun(Initial(start), steps);
    ScheduledMonotone(Closed(s.q.jobs[i]), 4);
    assert Scheduled(4) == RetryDelay(1) + RetryDelay(2) + RetryDelay(3) + RetryDelay(4);
  }
}
