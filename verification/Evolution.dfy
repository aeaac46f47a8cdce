/** The only ways a job row may change, and what follows for whole runs. */
module Evolution {
  import opened Rows
  import opened Policy
  import opened System
  import opened Engine
  import opened Invariant
  import opened Preservation
  import opened EngineTheorems

  /** Columns no transaction rewrites. */
  predicate SameIdentity(j: Job, j': Job) {
    && j'.kind == j.kind && j'.task == j.task && j'.run == j.run && j'.certificate == j.certificate
    && j'.scope == j.scope && j'.key == j.key && j'.createdAt == j.createdAt && j'.maxAttempts == j.maxAttempts
  }

  datatype Change = Stays | Claims | Ends | Parks | Retries | Resumes | Withdraws

  /** The life cycle of a job row. */
  predicate Changes(j: Job, j': Job, now: Time, change: Change) {
    match change
    case Stays => j' == j
    case Claims => j.status == Queued && j'.status == Running && j'.attempt == j.attempt + 1
    case Ends => j.status == Running && j'.status in {Succeeded, Failed} && j'.attempt == j.attempt
    case Parks => j.status == Running && j'.status == WaitingUser && j'.attempt == j.attempt
    case Retries => j.status == Running && j'.status == Queued && j'.attempt == j.attempt
                    && j.attempt < j.maxAttempts && j'.nextRunAt > now
    case Resumes => j.status == WaitingUser && j'.status == Queued && j'.attempt == j.attempt && j'.nextRunAt == now
    case Withdraws => j.status == Queued && j'.status == Cancelled && j'.attempt == j.attempt
  }

  function FinishChange(c: Claim, result: HandlerResult): Change {
    if result.Returned? then Ends
    else match PlanFor(ToFailure(result), c.attempt, c.maxAttempts)
         case PlanWait => Parks
         case PlanFail(retry) => if retry.Some? then Retries else Ends
  }

  /** How `step` changes row `i`. */
  function ChangeOf(s: Sys, step: Step, i: Id): Change
    requires Enabled(s, step) && i in s.q.jobs
  {
    var j := s.q.jobs[i];
    match step
    case Recover(ids) => if i !in ids then Stays else if j.attempt >= j.maxAttempts then Ends else Retries
    case Take(_, id) => if i == id then Claims else Stays
    case Finish(w, result) =>
      var c := s.workers[w];
      if i != c.job || !HoldsLease(s.q.jobs, i, w) || FinishTx(s.q, s.now, c, w, result).None? then Stays
      else FinishChange(c, result)
    case Confirm(_, job) => if i == job && j.status == WaitingUser then Resumes else Stays
    case Cancel(task) => if j.task == Some(task) && j.status == Queued then Withdraws else Stays
    case _ => Stays
  }

  lemma FinishChanges(s: Sys, w: Id, result: HandlerResult, i: Id)
    requires Inv(s) && w in s.workers && i in s.q.jobs
    ensures var s', step := Next(s, Finish(w, result)), Finish(w, result);
            && i in s'.q.jobs && SameIdentity(s.q.jobs[i], s'.q.jobs[i])
            && Changes(s.q.jobs[i], s'.q.jobs[i], s.now, ChangeOf(s, step, i))
  {
    FinishInState(s, w, result);
    FinishChangeAt(s, w, result, i);
    if FinishTx(s.q, s.now, s.workers[w], w, result).Some? {
      FinishedTableChanges(s.q.jobs, s.now, w, s.workers[w], result, i);
    }
  }

  lemma FinishChangeAt(s: Sys, w: Id, result: HandlerResult, i: Id)
    requires w in s.workers && i in s.q.jobs
    ensures var c := s.workers[w];
            ChangeOf(s, Finish(w, result), i)
            == if FinishTx(s.q, s.now, c, w, result).Some? && i == c.job && HoldsLease(s.q.jobs, i, w)
               then FinishChange(c, result) else Stays
  {
  }

  lemma FinishedTableChanges(jobs: map<Id, Job>, now: Time, w: Id, c: Claim, result: HandlerResult, i: Id)
    requires i in jobs && c.job in jobs && ClaimRow(jobs[c.job], now, w, c)
    ensures var jobs' := JobsAfterFinish(jobs, now, w, c, result);
            && i in jobs' && SameIdentity(jobs[i], jobs'[i])
            && Changes(jobs[i], jobs'[i], now, if i == c.job && HoldsLease(jobs, i, w) then FinishChange(c, result) else Stays)
  {
    if HoldsLease(jobs, c.job, w) {
      FinishedRowChanges(jobs[c.job], now, c, result);
    }
  }

  lemma FinishedRowChanges(j: Job, now: Time, c: Claim, result: HandlerResult)
    requires j.status == Running && j.attempt == c.attempt && j.maxAttempts == c.maxAttempts
    ensures var j' := FinishedRow(j, now, c, result); SameIdentity(j, j') && Changes(j, j', now, FinishChange(c, result))
  {
  }

  lemma CancelChanges(s: Sys, task: Id, i: Id)
    requires i in s.q.jobs
    ensures var j' := CancelTask(s.q, s.now, task).jobs[i];
            SameIdentity(s.q.jobs[i], j') && Changes(s.q.jobs[i], j', s.now, ChangeOf(s, Cancel(task), i))
  {
  }

  lemma OtherChanges(s: Sys, step: Step, i: Id)
    requires Enabled(s, step) && i in s.q.jobs && i < s.q.nextId
    requires step.Take? || step.Confirm? || step.Insert? || step.Advance? || step.Abandon? || step.Present?
    ensures var s' := Next(s, step);
            && i in s'.q.jobs && SameIdentity(s.q.jobs[i], s'.q.jobs[i])
            && Changes(s.q.jobs[i], s'.q.jobs[i], s.now, ChangeOf(s, step, i))
  {
  }

  lemma StepChanges(s: Sys, step: Step, i: Id)
    requires Inv(s) && Enabled(s, step) && i in s.q.jobs
    ensures var s' := Next(s, step);
            && i in s'.q.jobs && SameIdentity(s.q.jobs[i], s'.q.jobs[i])
            && Changes(s.q.jobs[i], s'.q.jobs[i], s.now, ChangeOf(s, step, i))
  {
    match step
    case Recover(ids) => RecoveryIsOneUpdate(s.q, s.now, RetryDelay(1), ids);
    case Finish(w, result) => FinishChanges(s, w, result, i);
    case Cancel(task) => CancelChanges(s, task, i);
    case _ => OtherChanges(s, step, i);
  }

  // ---------- terminal rows ----------

  /** A succeeded, failed or cancelled job is never claimed, requeued or changed again. */
  lemma {:induction false} TerminalForever(s: Sys, steps: seq<Step>, i: Id)
    requires Inv(s) && Valid(s, steps) && i in s.q.jobs && Terminal(s.q.jobs[i].status)
    ensures i in After(s, steps).q.jobs && After(s, steps).q.jobs[i] == s.q.jobs[i]
    decreases |steps|
  {
    if steps != [] {
      StepChanges(s, steps[0], i);
      StepKeeps(s, steps[0]);
      TerminalForever(Next(s, steps[0]), steps[1..], i);
    }
  }

  /** A queued job withdrawn with its task's configuration never runs again. */
  lemma CancelledNeverRuns(s: Sys, task: Id, steps: seq<Step>, i: Id)
    requires Inv(s) && i in s.q.jobs && s.q.jobs[i].task == Some(task) && s.q.jobs[i].status == Queued
    requires Valid(Next(s, Cancel(task)), steps)
    ensures var s' := After(Next(s, Cancel(task)), steps); i in s'.q.jobs && s'.q.jobs[i].status == Cancelled
  {
    StepKeeps(s, Cancel(task));
    TerminalForever(Next(s, Cancel(task)), steps, i);
  }
}
