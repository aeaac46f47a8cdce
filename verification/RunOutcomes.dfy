/** How batch runs end over whole histories: exactly which steps end or reopen one, and which runs
    are never finished. */
module RunOutcomes {
  import opened Rows
  import opened Catalog
  import opened Policy
  import opened System
  import opened Engine
  import opened Invariant
  import opened Preservation
  import opened EngineTheorems
  import opened Evolution
  import opened RunTheorems
  import opened Scheduling

  // ---------- which steps end a run ----------

  /** The result makes the worker park the job; that transaction commits even on a lost lease. */
  predicate Waits(result: HandlerResult) {
    !result.Returned? && ToFailure(result).waitingUser
  }

  /** Worker `w` holds a claim of run `r`, and its finish commits. */
  predicate Commits(s: Sys, w: Id, result: HandlerResult, r: Id) {
    && w in s.workers && s.workers[w].run == Some(r)
    && (HoldsLease(s.q.jobs, s.workers[w].job, w) || Waits(result))
  }

  /** All children are over, and one failed or none was cancelled. */
  ghost predicate Settles(jobs: map<Id, Job>, r: Id) {
    && AllOver(jobs, r)
    && ((exists i :: i in Children(jobs, r) && jobs[i].status == Failed)
        || (forall i | i in Children(jobs, r) :: jobs[i].status != Cancelled))
  }

  lemma CommitsAt(q: Queue, now: Time, c: Claim, w: Id, result: HandlerResult)
    requires RunKnown(q, c.run)
    ensures FinishTx(q, now, c, w, result).Some? <==> HoldsLease(q.jobs, c.job, w) || Waits(result)
  {
  }

  lemma CommitIff(s: Sys, w: Id, result: HandlerResult, r: Id)
    requires w in s.workers && r in s.q.runs && s.workers[w].run == Some(r)
    ensures FinishTx(s.q, s.now, s.workers[w], w, result).Some? <==> Commits(s, w, result, r)
  {
    CommitsAt(s.q, s.now, s.workers[w], w, result);
  }

  lemma FinalIff(jobs: map<Id, Job>, r: Id)
    requires Children(jobs, r) != {}
    ensures VerdictOf(jobs, r).1 <==> Settles(jobs, r)
    ensures VerdictOf(jobs, r).1 <==> Over(VerdictOf(jobs, r).0)
  {
    if AllOver(jobs, r) {
      FinishesIff(jobs, r);
    } else {
      var i :| i in Children(jobs, r) && !Terminal(jobs[i].status);
      if jobs[i].status == WaitingUser {
        assert i in ChildrenIn(jobs, r, {WaitingUser});
      } else {
        assert i in ChildrenIn(jobs, r, {Queued, Running});
      }
    }
  }

  lemma FinishedRunAt(s: Sys, w: Id, result: HandlerResult, r: Id)
    requires Inv(s) && w in s.workers && r in s.q.runs
    ensures var q' := Next(s, Finish(w, result)).q;
            && r in q'.runs && Children(q'.jobs, r) != {}
            && q'.jobs == (if FinishTx(s.q, s.now, s.workers[w], w, result).Some?
                           then JobsAfterFinish(s.q.jobs, s.now, w, s.workers[w], result) else s.q.jobs)
            && q'.runs[r] == (if Commits(s, w, result, r) then RefreshedRun(q'.jobs, r, s.q.runs[r], s.now) else s.q.runs[r])
  {
    ClaimFacts(s, w);
    FinishTxRun(s.q, s.latest, s.now, w, s.workers[w], result, r);
    FinishInState(s, w, result);
    if s.workers[w].run == Some(r) {
      CommitIff(s, w, result, r);
    }
    StepKeeps(s, Finish(w, result));
    assert RunOk(Next(s, Finish(w, result)).q.jobs, r, Next(s, Finish(w, result)).q.runs[r]);
  }

  lemma FinishEndsIff(s: Sys, w: Id, result: HandlerResult, r: Id)
    requires Inv(s) && w in s.workers && r in s.q.runs && !Over(s.q.runs[r].status)
    ensures var q' := Next(s, Finish(w, result)).q;
            && r in q'.runs
            && (Over(q'.runs[r].status)
                <==> Commits(s, w, result, r) && Settles(JobsAfterFinish(s.q.jobs, s.now, w, s.workers[w], result), r))
  {
    FinishedRunAt(s, w, result, r);
    FinalIff(Next(s, Finish(w, result)).q.jobs, r);
    if s.workers[w].run == Some(r) {
      CommitIff(s, w, result, r);
    }
  }

  /** A run that is not over becomes so in a step if and only if the step is a committed finish of one
      of its claims that leaves all children over, one of them failed or none cancelled, or it is the
      cancellation of its task while the run is still queued. */
  lemma RunEndsIff(s: Sys, step: Step, r: Id)
    requires Inv(s) && Enabled(s, step) && r in s.q.runs && !Over(s.q.runs[r].status)
    ensures r in Next(s, step).q.runs
    ensures Over(Next(s, step).q.runs[r].status)
            <==> || (&& step.Finish? && Commits(s, step.worker, step.result, r)
                     && Settles(JobsAfterFinish(s.q.jobs, s.now, step.worker, s.workers[step.worker], step.result), r))
                 || (step.Cancel? && s.q.runs[r].task == step.task && s.q.runs[r].status == RunQueued)
  {
    if step.Finish? {
      FinishEndsIff(s, step.worker, step.result, r);
    } else {
      RunIsOld(s, r);
      OtherRunAt(s, step, r);
    }
  }

  lemma OtherRunAt(s: Sys, step: Step, r: Id)
    requires Enabled(s, step) && r in s.q.runs && r < s.q.nextId && !step.Finish?
    ensures var run, s' := s.q.runs[r], Next(s, step);
            && r in s'.q.runs && s'.q.runs[r].task == run.task
            && s'.q.runs[r].status == (if step.Take? && s.q.jobs[step.id].run == Some(r) && run.status == RunQueued then RunRunning
                                       else if step.Cancel? && run.task == step.task && run.status == RunQueued then RunCancelled
                                       else run.status)
  {
    if step.Recover? {
      RecoverKeepsRuns(s.q, s.now, RetryDelay(1), step.ids);
    }
  }

  /** A cancelled run is reopened by a step if and only if the step parks one of its claims for the
      user; the lease of that claim is always lost by then. */
  lemma CancelledReopensIff(s: Sys, step: Step, r: Id)
    requires Inv(s) && Enabled(s, step) && r in s.q.runs && s.q.runs[r].status == RunCancelled
    ensures r in Next(s, step).q.runs
    ensures Next(s, step).q.runs[r].status != RunCancelled
            <==> step.Finish? && s.workers[step.worker].run == Some(r) && Waits(step.result)
  {
    if step.Finish? {
      FinishReopensIff(s, step.worker, step.result, r);
    } else {
      RunIsOld(s, r);
      OtherRunAt(s, step, r);
    }
  }

  lemma FinishReopensIff(s: Sys, w: Id, result: HandlerResult, r: Id)
    requires Inv(s) && w in s.workers && r in s.q.runs && s.q.runs[r].status == RunCancelled
    ensures var q' := Next(s, Finish(w, result)).q;
            r in q'.runs && (q'.runs[r].status != RunCancelled <==> s.workers[w].run == Some(r) && Waits(result))
  {
    FinishedRunAt(s, w, result, r);
    if s.workers[w].run == Some(r) {
      CancelledClaimIsLost(s, w, r);
    }
  }

  lemma CancelledClaimIsLost(s: Sys, w: Id, r: Id)
    requires Inv(s) && w in s.workers && s.workers[w].run == Some(r) && r in s.q.runs && s.q.runs[r].status == RunCancelled
    ensures !HoldsLease(s.q.jobs, s.workers[w].job, w)
  {
    HeldClaim(s, w);
    RunFacts(s, r);
    NobodyRuns(s.q.jobs, r, s.q.runs[r], s.workers[w].job);
  }

  lemma RunFacts(s: Sys, r: Id)
    requires Inv(s) && r in s.q.runs
    ensures RunOk(s.q.jobs, r, s.q.runs[r])
  {
  }

  lemma NobodyRuns(jobs: map<Id, Job>, r: Id, run: Run, i: Id)
    requires RunOk(jobs, r, run) && run.status == RunCancelled && i in jobs && jobs[i].run == Some(r)
    ensures jobs[i].status != Running
  {
    assert i in Children(jobs, r);
  }

  // ---------- runs nobody finishes ----------

  ghost predicate Unheld(s: Sys, r: Id) {
    forall w | w in s.workers :: s.workers[w].run != Some(r)
  }

  /** Reported as running or waiting, although every child is over and no worker holds a claim of it. */
  ghost predicate Stuck(s: Sys, r: Id) {
    r in s.q.runs && s.q.runs[r].status in {RunRunning, RunWaiting} && AllOver(s.q.jobs, r) && Unheld(s, r)
  }

  lemma UnheldStep(s: Sys, step: Step, r: Id)
    requires Enabled(s, step) && AllOver(s.q.jobs, r) && Unheld(s, r)
    ensures Unheld(Next(s, step), r)
  {
    if step.Take? {
      assert step.id !in Children(s.q.jobs, r);
    }
  }

  lemma StuckStep(s: Sys, step: Step, r: Id)
    requires Inv(s) && Enabled(s, step) && Stuck(s, r)
    ensures Stuck(Next(s, step), r)
    ensures Next(s, step).q.runs[r].status == s.q.runs[r].status && Next(s, step).q.runs[r].task == s.q.runs[r].task
  {
    UnheldStep(s, step, r);
    OverChildrenStand(s, step, r);
    if step.Finish? {
      FinishedRunAt(s, step.worker, step.result, r);
    } else {
      RunIsOld(s, r);
      OtherRunAt(s, step, r);
    }
  }

  /** Nothing ever finishes a stuck run. */
  lemma {:induction false} StuckForever(s: Sys, steps: seq<Step>, r: Id)
    requires Inv(s) && Valid(s, steps) && Stuck(s, r)
    ensures var s' := After(s, steps);
            Stuck(s', r) && s'.q.runs[r].status == s.q.runs[r].status && s'.q.runs[r].task == s.q.runs[r].task
    decreases |steps|
  {
    if steps != [] {
      StuckStep(s, steps[0], r);
      StepKeeps(s, steps[0]);
      StuckForever(Next(s, steps[0]), steps[1..], r);
    }
  }

  /** And no manual run of its task is ever started again. */
  lemma RefusedForever(s: Sys, steps: seq<Step>, r: Id, tasks: map<Id, Task>, certs: map<Id, Cert>, targets: seq<Id>)
    requires Inv(s) && Valid(s, steps) && Stuck(s, r)
    ensures var s', t := After(s, steps), s.q.runs[r].task;
            QueueRun(s'.q, tasks, certs, targets, s'.now, t) in {NoTask, RunInProgress}
  {
    StuckForever(s, steps, r);
    assert r in LiveRuns(After(s, steps).q.runs, s.q.runs[r].task);
  }

  // ---------- how runs get stuck ----------

  /** What a cancellation of its task leaves of a run is over. */
  ghost predicate NoneActive(jobs: map<Id, Job>, r: Id) {
    forall i | i in Children(jobs, r) :: jobs[i].status !in {Running, WaitingUser}
  }

  /** What a recovery of `ids` leaves of a run is over. */
  ghost predicate OverOrExhausted(jobs: map<Id, Job>, ids: seq<Id>, r: Id) {
    forall i | i in Children(jobs, r) :: Terminal(jobs[i].status) || (i in ids && jobs[i].attempt >= jobs[i].maxAttempts)
  }

  lemma CancelEnds(q: Queue, now: Time, task: Id, r: Id)
    requires forall i | i in Children(q.jobs, r) :: q.jobs[i].task == Some(task)
    ensures AllOver(CancelTask(q, now, task).jobs, r) <==> NoneActive(q.jobs, r)
  {
    var jobs' := CancelTask(q, now, task).jobs;
    assert Children(jobs', r) == Children(q.jobs, r);
    forall i | i in Children(q.jobs, r)
      ensures Terminal(jobs'[i].status) <==> q.jobs[i].status !in {Running, WaitingUser}
    {
    }
  }

  lemma ChildrenHaveTask(s: Sys, r: Id)
    requires Inv(s) && r in s.q.runs
    ensures forall i | i in Children(s.q.jobs, r) :: s.q.jobs[i].task == Some(s.q.runs[r].task)
  {
  }

  /** What the invariant says of one run. */
  ghost predicate RunIsPlain(s: Sys, r: Id) {
    && r in s.q.runs && r < s.q.nextId
    && forall i | i in Children(s.q.jobs, r) :: s.q.jobs[i].task == Some(s.q.runs[r].task)
  }

  lemma RunsArePlain(s: Sys, r: Id)
    requires Inv(s) && r in s.q.runs
    ensures RunIsPlain(s, r)
  {
    ChildrenHaveTask(s, r);
  }

  /** Cancelling its task leaves an unfinished run stuck if and only if no worker holds a claim of it
      and none of its children is running or waiting. */
  lemma CancelSticksIff(s: Sys, task: Id, r: Id)
    requires RunIsPlain(s, r) && s.q.runs[r].status in {RunRunning, RunWaiting} && task == s.q.runs[r].task
    ensures Stuck(Next(s, Cancel(task)), r) <==> Unheld(s, r) && NoneActive(s.q.jobs, r)
  {
    CancelEnds(s.q, s.now, task, r);
    SameWorkers(s, Cancel(task), r);
    OtherRunAt(s, Cancel(task), r);
  }

  lemma SameWorkers(s: Sys, step: Step, r: Id)
    requires Enabled(s, step) && (step.Cancel? || step.Recover?)
    ensures Unheld(Next(s, step), r) <==> Unheld(s, r)
  {
  }

  lemma RecoverEnds(q: Queue, now: Time, ids: seq<Id>, r: Id)
    requires ListsExpired(q.jobs, now, ids)
    ensures AllOver(RecoverJobs(q, now, RetryDelay(1), ids).jobs, r) <==> OverOrExhausted(q.jobs, ids, r)
  {
    RecoveryIsOneUpdate(q, now, RetryDelay(1), ids);
    RecoverSetEnds(q, now, Elements(ids), r);
  }

  lemma RecoverSetEnds(q: Queue, now: Time, ids: set<Id>, r: Id)
    requires forall i | i in ids :: i in q.jobs && q.jobs[i].status == Running
    ensures AllOver(RecoverSet(q, now, RetryDelay(1), ids).jobs, r)
            <==> forall i | i in Children(q.jobs, r) ::
                   Terminal(q.jobs[i].status) || (i in ids && q.jobs[i].attempt >= q.jobs[i].maxAttempts)
  {
    var jobs' := RecoverSet(q, now, RetryDelay(1), ids).jobs;
    assert Children(jobs', r) == Children(q.jobs, r);
    forall i | i in Children(q.jobs, r)
      ensures Terminal(jobs'[i].status) <==> Terminal(q.jobs[i].status) || (i in ids && q.jobs[i].attempt >= q.jobs[i].maxAttempts)
    {
    }
  }

  /** Lease recovery leaves an unfinished run stuck if and only if no worker holds a claim of it and
      every child is over already or recovered without attempts left. */
  lemma RecoverSticksIff(s: Sys, ids: seq<Id>, r: Id)
    requires RunIsPlain(s, r) && Enabled(s, Recover(ids)) && s.q.runs[r].status in {RunRunning, RunWaiting}
    ensures Stuck(Next(s, Recover(ids)), r)
            <==> Unheld(s, r) && OverOrExhausted(s.q.jobs, ids, r)
  {
    RecoverEnds(s.q, s.now, ids, r);
    SameWorkers(s, Recover(ids), r);
    OtherRunAt(s, Recover(ids), r);
  }

  /** Worker `w` holds a claim of run `r`, and no other worker does. */
  ghost predicate LastClaim(s: Sys, w: Id, r: Id) {
    && w in s.workers && s.workers[w].run == Some(r)
    && forall v | v in s.workers && v != w :: s.workers[v].run != Some(r)
  }

  /** The steps that leave a run stuck: its children end without a refresh and nobody holds a claim of
      it, or they are over already and the last claim of it is let go, by the death of its worker or by
      a finish that does not wait for the user. */
  ghost predicate Sticks(s: Sys, step: Step, r: Id)
    requires Enabled(s, step)
  {
    && r in s.q.runs && s.q.runs[r].status in {RunRunning, RunWaiting}
    && match step
       case Cancel(task) => task == s.q.runs[r].task && Unheld(s, r) && NoneActive(s.q.jobs, r)
       case Recover(ids) => Unheld(s, r) && OverOrExhausted(s.q.jobs, ids, r)
       case Abandon(w) => LastClaim(s, w, r) && AllOver(s.q.jobs, r)
       case Finish(w, result) => LastClaim(s, w, r) && AllOver(s.q.jobs, r) && !Waits(result)
       case _ => false
  }

  lemma OverWasOver(s: Sys, step: Step, r: Id)
    requires Inv(s) && Enabled(s, step) && AllOver(Next(s, step).q.jobs, r)
    requires !step.Finish? && !step.Recover? && !step.Cancel?
    ensures AllOver(s.q.jobs, r)
  {
    forall i | i in Children(s.q.jobs, r)
      ensures Terminal(s.q.jobs[i].status)
    {
      StepChanges(s, step, i);
      ChildWasOver(s.q.jobs, Next(s, step).q.jobs, r, i, s.now, ChangeOf(s, step, i));
    }
  }

  lemma ChildWasOver(jobs: map<Id, Job>, jobs': map<Id, Job>, r: Id, i: Id, now: Time, change: Change)
    requires i in Children(jobs, r) && i in jobs' && SameIdentity(jobs[i], jobs'[i]) && Changes(jobs[i], jobs'[i], now, change)
    requires change in {Stays, Claims, Resumes} && AllOver(jobs', r)
    ensures Terminal(jobs[i].status)
  {
    assert i in Children(jobs', r);
  }

  /** A run that appears in a step is queued, and so are its children. */
  lemma NewRunIsQueued(s: Sys, step: Step, r: Id)
    requires Inv(s) && Enabled(s, step) && r !in s.q.runs && r in Next(s, step).q.runs
    ensures Next(s, step).q.runs[r].status == RunQueued && !AllOver(Next(s, step).q.jobs, r)
  {
    match step
    case Finish(w, result) => FinishKeepsRuns(s, w, result);
    case Recover(ids) => RecoverKeepsRuns(s.q, s.now, RetryDelay(1), ids);
    case Insert(b) => InsertedRunIsQueued(s.q, s.now, b, r);
    case _ =>
  }

  lemma NewRunIsNotStuck(s: Sys, step: Step, r: Id)
    requires Inv(s) && Enabled(s, step) && r !in s.q.runs
    ensures !Stuck(Next(s, step), r)
  {
    if r in Next(s, step).q.runs {
      NewRunIsQueued(s, step, r);
    }
  }

  lemma InsertedRunIsQueued(q: Queue, now: Time, b: Batch, r: Id)
    requires GoodBatch(q, now, b) && r !in q.runs && r in b.runs
    ensures Enqueue(q, b).runs[r].status == RunQueued && !AllOver(Enqueue(q, b).jobs, r)
  {
    assert Children(b.jobs, r) != {};
    var i :| i in Children(b.jobs, r);
    assert i in Children(Enqueue(q, b).jobs, r) && b.jobs[i].status == Queued;
  }

  lemma AbandonSticksIff(s: Sys, w: Id, r: Id)
    requires w in s.workers && r in s.q.runs && s.q.runs[r].status in {RunRunning, RunWaiting} && !Stuck(s, r)
    ensures Stuck(Next(s, Abandon(w)), r) <==> LastClaim(s, w, r) && AllOver(s.q.jobs, r)
  {
    UnheldAfter(s.workers, w, r);
  }

  /** Once a worker has let go, nobody holds a claim of the run if and only if its own was the last. */
  lemma UnheldAfter(workers: map<Id, Claim>, w: Id, r: Id)
    requires w in workers
    ensures (forall v | v in workers - {w} :: workers[v].run != Some(r))
            <==> forall v | v in workers && v != w :: workers[v].run != Some(r)
  {
  }

  lemma FinishLeavesWorkers(s: Sys, w: Id, result: HandlerResult, r: Id)
    requires w in s.workers
    ensures Unheld(Next(s, Finish(w, result)), r) <==> forall v | v in s.workers && v != w :: s.workers[v].run != Some(r)
  {
    assert Next(s, Finish(w, result)).workers == s.workers - {w};
    UnheldAfter(s.workers, w, r);
  }

  lemma FinishLeavesChildren(jobs: map<Id, Job>, now: Time, w: Id, c: Claim, result: HandlerResult, r: Id)
    requires c.job in jobs && jobs[c.job].run == c.run && c.run != Some(r)
    ensures AllOver(JobsAfterFinish(jobs, now, w, c, result), r) <==> AllOver(jobs, r)
    ensures Settles(JobsAfterFinish(jobs, now, w, c, result), r) <==> Settles(jobs, r)
  {
    var jobs' := JobsAfterFinish(jobs, now, w, c, result);
    assert Children(jobs', r) == Children(jobs, r);
    SameSettling(jobs, jobs', r);
  }

  /** A lost claim finishes without touching anything, unless it waits for the user. */
  lemma OverClaimCommitsIff(s: Sys, w: Id, result: HandlerResult, r: Id)
    requires Inv(s) && w in s.workers && s.workers[w].run == Some(r) && r in s.q.runs && AllOver(s.q.jobs, r)
    ensures Commits(s, w, result, r) <==> Waits(result)
  {
    HeldClaim(s, w);
    assert s.workers[w].job in Children(s.q.jobs, r);
  }

  /** A refresh of a run whose children are all over reports neither running nor waiting. */
  lemma OverIsNotActive(jobs: map<Id, Job>, r: Id, run: Run, now: Time)
    requires AllOver(jobs, r) && Children(jobs, r) != {}
    ensures RefreshedRun(jobs, r, run, now).status !in {RunRunning, RunWaiting}
    ensures RefreshedRun(jobs, r, run, now).status == RunQueued <==> !Settles(jobs, r)
  {
    FinalIff(jobs, r);
    FinishesIff(jobs, r);
  }

  lemma FinishSticks(s: Sys, w: Id, result: HandlerResult, r: Id)
    requires Inv(s) && w in s.workers && r in s.q.runs && !Stuck(s, r)
    ensures Stuck(Next(s, Finish(w, result)), r) <==> Sticks(s, Finish(w, result), r)
  {
    var q' := Next(s, Finish(w, result)).q;
    FinishedRunAt(s, w, result, r);
    FinishLeavesWorkers(s, w, result, r);
    HeldClaim(s, w);
    if Commits(s, w, result, r) {
      if AllOver(q'.jobs, r) {
        OverIsNotActive(q'.jobs, r, s.q.runs[r], s.now);
      }
      if AllOver(s.q.jobs, r) {
        OverClaimCommitsIff(s, w, result, r);
      }
    } else if s.workers[w].run == Some(r) {
      CommitIff(s, w, result, r);
    } else {
      FinishLeavesChildren(s.q.jobs, s.now, w, s.workers[w], result, r);
    }
  }

  lemma AbandonSticks(s: Sys, w: Id, r: Id)
    requires w in s.workers && r in s.q.runs && !Stuck(s, r)
    ensures Stuck(Next(s, Abandon(w)), r) <==> Sticks(s, Abandon(w), r)
  {
    if s.q.runs[r].status in {RunRunning, RunWaiting} {
      AbandonSticksIff(s, w, r);
    }
  }

  lemma QuietSteps(s: Sys, step: Step, r: Id)
    requires Inv(s) && Enabled(s, step) && r in s.q.runs && !Stuck(s, r)
    requires !step.Finish? && !step.Recover? && !step.Cancel? && !step.Abandon?
    ensures !Stuck(Next(s, step), r)
  {
    if Stuck(Next(s, step), r) {
      OverWasOver(s, step, r);
      RunIsOld(s, r);
      QuietRun(s, step, r);
      WorkersOnlyGrow(s, step, r);
    }
  }

  lemma QuietRun(s: Sys, step: Step, r: Id)
    requires Enabled(s, step) && r in s.q.runs && r < s.q.nextId && AllOver(s.q.jobs, r)
    requires !step.Finish? && !step.Recover? && !step.Cancel? && !step.Abandon?
    ensures r in Next(s, step).q.runs && Next(s, step).q.runs[r].status == s.q.runs[r].status
  {
    OtherRunAt(s, step, r);
    if step.Take? {
      assert step.id !in Children(s.q.jobs, r);
    }
  }

  lemma WorkersOnlyGrow(s: Sys, step: Step, r: Id)
    requires Enabled(s, step) && !step.Finish? && !step.Abandon?
    ensures Unheld(Next(s, step), r) ==> Unheld(s, r)
  {
    if Unheld(Next(s, step), r) {
      forall w | w in s.workers
        ensures s.workers[w].run != Some(r)
      {
        assert w in Next(s, step).workers && Next(s, step).workers[w] == s.workers[w];
      }
    }
  }

  lemma CancelOfAnother(q: Queue, now: Time, task: Id, r: Id)
    requires forall i | i in Children(q.jobs, r) :: q.jobs[i].task != Some(task)
    ensures var jobs' := CancelTask(q, now, task).jobs;
            Children(jobs', r) == Children(q.jobs, r) && forall i | i in Children(q.jobs, r) :: jobs'[i] == q.jobs[i]
  {
  }

  lemma CancelOfAnotherSticks(s: Sys, task: Id, r: Id)
    requires RunIsPlain(s, r) && task != s.q.runs[r].task
    ensures Stuck(Next(s, Cancel(task)), r) <==> Stuck(s, r)
  {
    CancelOfAnother(s.q, s.now, task, r);
    OtherRunAt(s, Cancel(task), r);
    SameWorkers(s, Cancel(task), r);
  }

  lemma CancelSticks(s: Sys, task: Id, r: Id)
    requires RunIsPlain(s, r) && !Stuck(s, r)
    ensures Stuck(Next(s, Cancel(task)), r) <==> Sticks(s, Cancel(task), r)
  {
    if task != s.q.runs[r].task {
      CancelOfAnotherSticks(s, task, r);
    } else if s.q.runs[r].status in {RunRunning, RunWaiting} {
      CancelSticksIff(s, task, r);
    } else {
      InactiveIsNotStuck(s, Cancel(task), r);
    }
  }

  lemma InactiveIsNotStuck(s: Sys, step: Step, r: Id)
    requires RunIsPlain(s, r) && Enabled(s, step) && (step.Cancel? || step.Recover?)
    requires s.q.runs[r].status !in {RunRunning, RunWaiting}
    ensures !Stuck(Next(s, step), r)
  {
    OtherRunAt(s, step, r);
  }

  lemma RecoverSticks(s: Sys, ids: seq<Id>, r: Id)
    requires RunIsPlain(s, r) && Enabled(s, Recover(ids))
    ensures Stuck(Next(s, Recover(ids)), r) <==> Sticks(s, Recover(ids), r)
  {
    if s.q.runs[r].status in {RunRunning, RunWaiting} {
      RecoverSticksIff(s, ids, r);
    } else {
      InactiveIsNotStuck(s, Recover(ids), r);
    }
  }

  /** Every way a run can get stuck, and no other. */
  lemma BecomesStuckIff(s: Sys, step: Step, r: Id)
    requires Inv(s) && Enabled(s, step) && !Stuck(s, r)
    ensures Stuck(Next(s, step), r) <==> Sticks(s, step, r)
  {
    if r !in s.q.runs {
      NewRunIsNotStuck(s, step, r);
    } else if step.Finish? {
      FinishSticks(s, step.worker, step.result, r);
    } else {
      OtherSteps(s, step, r);
    }
  }

  lemma OtherSteps(s: Sys, step: Step, r: Id)
    requires Enabled(s, step) && !step.Finish? && r in s.q.runs && !Stuck(s, r) && Inv(s)
    ensures Stuck(Next(s, step), r) <==> Sticks(s, step, r)
  {
    RunsArePlain(s, r);
    match step
    case Cancel(task) => CancelSticks(s, task, r);
    case Recover(ids) => RecoverSticks(s, ids, r);
    case Abandon(w) => AbandonSticks(s, w, r);
    case _ => QuietSteps(s, step, r);
  }

  /** So a run is stuck at the end of a history only if one of its steps was of that kind. */
  lemma {:induction false} StuckHasCause(s: Sys, steps: seq<Step>, r: Id) returns (k: nat)
    requires Inv(s) && Valid(s, steps) && !Stuck(s, r) && Stuck(After(s, steps), r)
    ensures SticksAt(s, steps, k, r)
    decreases |steps|
  {
    if Stuck(Next(s, steps[0]), r) {
      BecomesStuckIff(s, steps[0], r);
      k := 0;
    } else {
      StepKeeps(s, steps[0]);
      k := StuckHasCause(Next(s, steps[0]), steps[1..], r);
      LaterCause(s, steps, k, r);
      k := k + 1;
    }
  }

  /** Step `k` of the history leaves the run stuck. */
  ghost predicate SticksAt(s: Sys, steps: seq<Step>, k: nat, r: Id) {
    && k < |steps| && Valid(s, steps[..k])
    && Enabled(After(s, steps[..k]), steps[k]) && Sticks(After(s, steps[..k]), steps[k], r)
  }

  lemma LaterCause(s: Sys, steps: seq<Step>, k: nat, r: Id)
    requires steps != [] && Enabled(s, steps[0]) && SticksAt(Next(s, steps[0]), steps[1..], k, r)
    ensures SticksAt(s, steps, k + 1, r)
  {
    assert steps[..k + 1][0] == steps[0] && steps[..k + 1][1..] == steps[1..][..k];
  }

  // ---------- runs that go back to queued for nothing ----------

  /** Reported as queued although every child is over, some of them cancelled and none failed. */
  ghost predicate Shelved(s: Sys, r: Id) {
    r in s.q.runs && s.q.runs[r].status == RunQueued && AllOver(s.q.jobs, r) && !Settles(s.q.jobs, r)
  }

  /** A run is shelved by a step if and only if the step is a committed finish of one of its claims that
      leaves all its children over, some of them cancelled and none failed. */
  lemma BecomesShelvedIff(s: Sys, step: Step, r: Id)
    requires Inv(s) && Enabled(s, step) && !Shelved(s, r)
    ensures Shelved(Next(s, step), r)
            <==> && step.Finish? && r in s.q.runs && Commits(s, step.worker, step.result, r)
                 && var jobs' := JobsAfterFinish(s.q.jobs, s.now, step.worker, s.workers[step.worker], step.result);
                    AllOver(jobs', r) && !Settles(jobs', r)
  {
    if r !in s.q.runs {
      if r in Next(s, step).q.runs {
        NewRunIsQueued(s, step, r);
      }
    } else if step.Finish? {
      FinishShelvesIff(s, step.worker, step.result, r);
    } else {
      OthersShelveNothing(s, step, r);
    }
  }

  lemma FinishShelvesIff(s: Sys, w: Id, result: HandlerResult, r: Id)
    requires Inv(s) && w in s.workers && r in s.q.runs && !Shelved(s, r)
    ensures Shelved(Next(s, Finish(w, result)), r)
            <==> && Commits(s, w, result, r)
                 && var jobs' := JobsAfterFinish(s.q.jobs, s.now, w, s.workers[w], result);
                    AllOver(jobs', r) && !Settles(jobs', r)
  {
    var q' := Next(s, Finish(w, result)).q;
    FinishedRunAt(s, w, result, r);
    HeldClaim(s, w);
    if Commits(s, w, result, r) {
      CommitIff(s, w, result, r);
      if AllOver(q'.jobs, r) {
        OverIsNotActive(q'.jobs, r, s.q.runs[r], s.now);
      }
    } else if s.workers[w].run == Some(r) {
      CommitIff(s, w, result, r);
    } else {
      FinishLeavesChildren(s.q.jobs, s.now, w, s.workers[w], result, r);
    }
  }

  lemma OthersShelveNothing(s: Sys, step: Step, r: Id)
    requires Inv(s) && Enabled(s, step) && !step.Finish? && r in s.q.runs && !Shelved(s, r)
    ensures !Shelved(Next(s, step), r)
  {
    if Shelved(Next(s, step), r) {
      RunIsOld(s, r);
      OtherRunAt(s, step, r);
      OverInQueuedRun(s, step, r);
      OverChildrenStand(s, step, r);
      SameSettling(s.q.jobs, Next(s, step).q.jobs, r);
    }
  }

  lemma OverInQueuedRun(s: Sys, step: Step, r: Id)
    requires Inv(s) && Enabled(s, step) && !step.Finish? && r in s.q.runs && s.q.runs[r].status == RunQueued
    requires step != Cancel(s.q.runs[r].task) && AllOver(Next(s, step).q.jobs, r)
    ensures AllOver(s.q.jobs, r)
  {
    RunsArePlain(s, r);
    match step
    case Cancel(task) => OverInCancelled(s, task, r);
    case Recover(ids) => OverInRecovered(s, ids, r);
    case _ => OverWasOver(s, step, r);
  }

  lemma OverInCancelled(s: Sys, task: Id, r: Id)
    requires RunIsPlain(s, r) && task != s.q.runs[r].task && AllOver(Next(s, Cancel(task)).q.jobs, r)
    ensures AllOver(s.q.jobs, r)
  {
    CancelOfAnother(s.q, s.now, task, r);
  }

  lemma OverInRecovered(s: Sys, ids: seq<Id>, r: Id)
    requires Inv(s) && Enabled(s, Recover(ids)) && r in s.q.runs && s.q.runs[r].status == RunQueued
    requires AllOver(Next(s, Recover(ids)).q.jobs, r)
    ensures AllOver(s.q.jobs, r)
  {
    RunFacts(s, r);
    NoneListed(s.q.jobs, s.now, ids, r, s.q.runs[r]);
    RecoverEnds(s.q, s.now, ids, r);
  }

  lemma NoneListed(jobs: map<Id, Job>, now: Time, ids: seq<Id>, r: Id, run: Run)
    requires RunOk(jobs, r, run) && run.status == RunQueued && ListsExpired(jobs, now, ids)
    ensures forall i | i in Children(jobs, r) :: i !in ids
  {
  }

  /** It stays so in a step if and only if the step is not the cancellation of its task. */
  lemma ShelvedUntilCancelled(s: Sys, step: Step, r: Id)
    requires Inv(s) && Enabled(s, step) && Shelved(s, r)
    ensures r in Next(s, step).q.runs && Next(s, step).q.runs[r].task == s.q.runs[r].task
    ensures Shelved(Next(s, step), r) <==> step != Cancel(s.q.runs[r].task)
  {
    OverChildrenStand(s, step, r);
    SameSettling(s.q.jobs, Next(s, step).q.jobs, r);
    if step.Finish? {
      ShelvedFinish(s, step.worker, step.result, r);
    } else {
      RunIsOld(s, r);
      OtherRunAt(s, step, r);
      if step.Take? {
        assert step.id !in Children(s.q.jobs, r);
      }
    }
  }

  lemma ShelvedFinish(s: Sys, w: Id, result: HandlerResult, r: Id)
    requires Inv(s) && w in s.workers && Shelved(s, r)
    ensures var q' := Next(s, Finish(w, result)).q;
            r in q'.runs && q'.runs[r].status == RunQueued && q'.runs[r].task == s.q.runs[r].task
  {
    FinishedRunAt(s, w, result, r);
    if Commits(s, w, result, r) {
      OverChildrenStand(s, Finish(w, result), r);
      SameSettling(s.q.jobs, Next(s, Finish(w, result)).q.jobs, r);
      OverIsNotActive(Next(s, Finish(w, result)).q.jobs, r, s.q.runs[r], s.now);
    }
  }

  lemma SameSettling(jobs: map<Id, Job>, jobs': map<Id, Job>, r: Id)
    requires Children(jobs', r) == Children(jobs, r) && forall i | i in Children(jobs, r) :: jobs'[i] == jobs[i]
    ensures Settles(jobs', r) <==> Settles(jobs, r)
  {
  }

  /** Until then every manual run of its task is refused. */
  lemma {:induction false} ShelvedRefuses(s: Sys, steps: seq<Step>, r: Id, tasks: map<Id, Task>, certs: map<Id, Cert>, targets: seq<Id>)
    requires Inv(s) && Valid(s, steps) && Shelved(s, r)
    requires forall step | step in steps :: step != Cancel(s.q.runs[r].task)
    ensures var s', t := After(s, steps), s.q.runs[r].task;
            Shelved(s', r) && QueueRun(s'.q, tasks, certs, targets, s'.now, t) in {NoTask, RunInProgress}
    decreases |steps|
  {
    if steps == [] {
      assert r in LiveRuns(s.q.runs, s.q.runs[r].task);
    } else {
      assert steps[0] in steps && forall step | step in steps[1..] :: step in steps;
      ShelvedUntilCancelled(s, steps[0], r);
      StepKeeps(s, steps[0]);
      ShelvedRefuses(Next(s, steps[0]), steps[1..], r, tasks, certs, targets);
    }
  }
}
