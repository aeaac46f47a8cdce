/** Batch runs: what their verdicts and counters promise, and where they lag. */
module RunTheorems {
  import opened Rows
  import opened Policy
  import opened System
  import opened Engine
  import opened Invariant
  import opened Preservation
  import opened EngineTheorems
  import opened Evolution

  // ---------- soundness ----------

  ghost predicate SoundVerdict(jobs: map<Id, Job>, r: Id, run: Run) {
    && Children(jobs, r) != {}
    && (run.status == RunSucceeded ==> forall i | i in Children(jobs, r) :: jobs[i].status == Succeeded)
    && (run.status in {RunFailed, RunPartial} ==> exists i :: i in Children(jobs, r) && jobs[i].status == Failed)
    && (run.status == RunPartial ==> exists i :: i in Children(jobs, r) && jobs[i].status == Succeeded)
    && (run.status == RunFailed ==> forall i | i in Children(jobs, r) :: jobs[i].status != Succeeded)
    && (Over(run.status) ==> forall i | i in Children(jobs, r) :: Terminal(jobs[i].status))
    && (run.status == RunQueued ==> forall i | i in Children(jobs, r) :: jobs[i].status !in {Running, WaitingUser})
    && (run.finished.Some? <==> Over(run.status))
  }

  lemma SoundRun(jobs: map<Id, Job>, r: Id, run: Run)
    requires RunOk(jobs, r, run)
    ensures SoundVerdict(jobs, r, run)
  {
    if run.status in {RunPartial, RunFailed} {
      var i :| i in ChildrenIn(jobs, r, {Failed});
      assert i in Children(jobs, r) && jobs[i].status == Failed;
    }
    if run.status == RunPartial {
      var i :| i in ChildrenIn(jobs, r, {Succeeded});
      assert i in Children(jobs, r) && jobs[i].status == Succeeded;
    }
  }

  /** A run's status never claims more than its children show. */
  lemma VerdictsAreSound(s: Sys, r: Id)
    requires Reachable(s) && r in s.q.runs
    ensures SoundVerdict(s.q.jobs, r, s.q.runs[r])
  {
    ReachableInv(s);
    SoundRun(s.q.jobs, r, s.q.runs[r]);
  }

  /** Once all children are terminal, refreshing finishes the run if and only if some child
      failed or none was cancelled; otherwise the run goes back to queued. */
  lemma FinishesIff(jobs: map<Id, Job>, r: Id)
    requires Children(jobs, r) != {}
    requires forall i | i in Children(jobs, r) :: Terminal(jobs[i].status)
    ensures VerdictOf(jobs, r).1 <==>
            (exists i :: i in Children(jobs, r) && jobs[i].status == Failed)
            || (forall i | i in Children(jobs, r) :: jobs[i].status != Cancelled)
    ensures !VerdictOf(jobs, r).1 ==> VerdictOf(jobs, r).0 == RunQueued
  {
    var children, succeeded, failed := Children(jobs, r), ChildrenIn(jobs, r, {Succeeded}), ChildrenIn(jobs, r, {Failed});
    assert ChildrenIn(jobs, r, {Queued, Running}) == {} == ChildrenIn(jobs, r, {WaitingUser});
    CardSubset(succeeded, children);
    assert forall i | i in children && jobs[i].status == Failed :: i in failed;
    if failed != {} {
      var i :| i in failed;
      assert i in children && jobs[i].status == Failed;
    } else if forall i | i in children :: jobs[i].status != Cancelled {
      forall i | i in children
        ensures i in succeeded
      {
        assert i !in failed;
      }
      assert succeeded == children;
    } else {
      var i :| i in children && jobs[i].status == Cancelled;
      assert i !in succeeded;
    }
  }

  // ---------- stability ----------

  predicate Decided(status: RunStatus) {
    status in {RunSucceeded, RunPartial, RunFailed}
  }

  /** Refreshing a decided run decides it the same way. */
  lemma RefreshKeepsVerdict(jobs: map<Id, Job>, r: Id, run: Run)
    requires RunOk(jobs, r, run) && Decided(run.status)
    ensures VerdictOf(jobs, r).0 == run.status
  {
    var children, succeeded := Children(jobs, r), ChildrenIn(jobs, r, {Succeeded});
    assert ChildrenIn(jobs, r, {Queued, Running}) == {} == ChildrenIn(jobs, r, {WaitingUser});
    if run.status == RunSucceeded {
      assert succeeded == children && ChildrenIn(jobs, r, {Failed}) == {};
    } else if run.status == RunFailed {
      assert succeeded == {};
    }
  }

  lemma FinishTxRun(q: Queue, latest: map<Id, Id>, now: Time, w: Id, c: Claim, result: HandlerResult, r: Id)
    requires Ledger(q.jobs, q.execs, latest) && ClaimOk(q.jobs, q.execs, now, w, c) && RowShape(q.jobs[c.job])
    requires r in q.runs
    ensures var tx := FinishTx(q, now, c, w, result);
            tx.Some? ==> r in tx.value.runs
                         && tx.value.runs[r] == if c.run == Some(r) then RefreshedRun(tx.value.jobs, r, q.runs[r], now) else q.runs[r]
  {
    FinishEffect(q, latest, now, w, c, result);
  }

  lemma FinishRun(s: Sys, w: Id, result: HandlerResult, r: Id)
    requires w in s.workers && r in s.q.runs && ClaimOk(s.q.jobs, s.q.execs, s.now, w, s.workers[w])
    requires Ledger(s.q.jobs, s.q.execs, s.latest) && RowShape(s.q.jobs[s.workers[w].job])
    ensures var q' := Next(s, Finish(w, result)).q;
            && r in q'.runs
            && (q'.runs[r] == s.q.runs[r] || q'.runs[r] == RefreshedRun(q'.jobs, r, s.q.runs[r], s.now))
  {
    FinishTxRun(s.q, s.latest, s.now, w, s.workers[w], result, r);
  }

  lemma ClaimFacts(s: Sys, w: Id)
    requires Inv(s) && w in s.workers
    ensures var c := s.workers[w];
            && ClaimOk(s.q.jobs, s.q.execs, s.now, w, c)
            && Ledger(s.q.jobs, s.q.execs, s.latest) && RowShape(s.q.jobs[c.job])
  {
    assert ClaimOk(s.q.jobs, s.q.execs, s.now, w, s.workers[w]);
  }

  ghost predicate AllOver(jobs: map<Id, Job>, r: Id) {
    forall i | i in Children(jobs, r) :: Terminal(jobs[i].status)
  }

  /** A child of a run whose children are all over is never touched again. */
  lemma ChildRowStands(jobs: map<Id, Job>, jobs': map<Id, Job>, r: Id, i: Id, now: Time, change: Change)
    requires i in jobs && i in jobs' && SameIdentity(jobs[i], jobs'[i]) && Changes(jobs[i], jobs'[i], now, change)
    requires AllOver(jobs, r)
    ensures ChildStands(jobs, jobs', r, i)
  {
  }

  lemma OverChildAt(s: Sys, step: Step, r: Id, i: Id)
    requires Inv(s) && Enabled(s, step) && r in s.q.runs && AllOver(s.q.jobs, r)
    ensures ChildStands(s.q.jobs, Next(s, step).q.jobs, r, i)
  {
    if i in s.q.jobs {
      StepChanges(s, step, i);
      ChildRowStands(s.q.jobs, Next(s, step).q.jobs, r, i, s.now, ChangeOf(s, step, i));
    } else if i in Next(s, step).q.jobs {
      NoLateChildren(s, step, r, i);
    }
  }

  ghost predicate ChildStands(jobs: map<Id, Job>, jobs': map<Id, Job>, r: Id, i: Id) {
    && (i in Children(jobs', r) <==> i in Children(jobs, r))
    && (i in Children(jobs, r) ==> jobs'[i] == jobs[i])
  }

  lemma ChildrenStand(jobs: map<Id, Job>, jobs': map<Id, Job>, r: Id)
    requires forall i :: ChildStands(jobs, jobs', r, i)
    ensures Children(jobs', r) == Children(jobs, r)
    ensures forall i | i in Children(jobs, r) :: jobs'[i] == jobs[i]
  {
    forall i
      ensures i in Children(jobs', r) <==> i in Children(jobs, r)
      ensures i in Children(jobs, r) ==> jobs'[i] == jobs[i]
    {
      assert ChildStands(jobs, jobs', r, i);
    }
  }

  lemma OverChildrenStand(s: Sys, step: Step, r: Id)
    requires Inv(s) && Enabled(s, step) && r in s.q.runs && AllOver(s.q.jobs, r)
    ensures Children(Next(s, step).q.jobs, r) == Children(s.q.jobs, r)
    ensures forall i | i in Children(s.q.jobs, r) :: Next(s, step).q.jobs[i] == s.q.jobs[i]
    ensures AllOver(Next(s, step).q.jobs, r)
  {
    forall i {
      OverChildAt(s, step, r, i);
    }
    ChildrenStand(s.q.jobs, Next(s, step).q.jobs, r);
  }

  lemma DecidedIsOver(jobs: map<Id, Job>, runs: map<Id, Run>, r: Id)
    requires RunsOk(jobs, runs) && r in runs && Decided(runs[r].status)
    ensures AllOver(jobs, r)
  {
    assert RunOk(jobs, r, runs[r]);
  }

  lemma InsertedChild(q: Queue, now: Time, b: Batch, r: Id, i: Id)
    requires GoodBatch(q, now, b) && r < q.nextId && i in Enqueue(q, b).jobs && i !in q.jobs
    ensures Enqueue(q, b).jobs[i].run != Some(r)
  {
    assert i in b.jobs;
  }

  lemma NoLateChildAt(s: Sys, step: Step, r: Id, i: Id)
    requires Enabled(s, step) && !step.Finish? && r < s.q.nextId && i in Next(s, step).q.jobs && i !in s.q.jobs
    ensures Next(s, step).q.jobs[i].run != Some(r)
  {
    match step
    case Insert(b) => InsertedChild(s.q, s.now, b, r, i);
    case _ =>
  }

  /** No transaction adds a child to a run that already exists. */
  lemma NoLateChildren(s: Sys, step: Step, r: Id, i: Id)
    requires Inv(s) && Enabled(s, step) && r in s.q.runs && i in Next(s, step).q.jobs && i !in s.q.jobs
    ensures Next(s, step).q.jobs[i].run != Some(r)
  {
    if step.Finish? {
      FinishInState(s, step.worker, step.result);
    } else {
      NoLateChildAt(s, step, r, i);
    }
  }

  lemma SameVerdict(jobs: map<Id, Job>, jobs': map<Id, Job>, r: Id)
    requires Children(jobs', r) == Children(jobs, r)
    requires forall i | i in Children(jobs, r) :: jobs'[i] == jobs[i]
    ensures VerdictOf(jobs', r) == VerdictOf(jobs, r)
  {
    assert ChildrenIn(jobs', r, {Succeeded}) == ChildrenIn(jobs, r, {Succeeded});
    assert ChildrenIn(jobs', r, {Failed}) == ChildrenIn(jobs, r, {Failed});
    assert ChildrenIn(jobs', r, {Queued, Running}) == ChildrenIn(jobs, r, {Queued, Running});
    assert ChildrenIn(jobs', r, {WaitingUser}) == ChildrenIn(jobs, r, {WaitingUser});
  }

  lemma OtherStepsAndRuns(s: Sys, step: Step, r: Id)
    requires Enabled(s, step) && r in s.q.runs && r < s.q.nextId && Decided(s.q.runs[r].status)
    requires step.Take? || step.Confirm? || step.Cancel? || step.Insert? || step.Advance? || step.Abandon? || step.Present?
    ensures var s' := Next(s, step); r in s'.q.runs && s'.q.runs[r] == s.q.runs[r]
  {
  }

  lemma DecidedStep(s: Sys, step: Step, r: Id)
    requires Enabled(s, step) && r in s.q.runs && Decided(s.q.runs[r].status) && Inv(s)
    ensures var s' := Next(s, step); r in s'.q.runs && s'.q.runs[r].status == s.q.runs[r].status
  {
    match step
    case Recover(ids) => DecidedRecover(s, ids, r);
    case Finish(w, result) => DecidedFinish(s, w, result, r);
    case _ =>
      RunIsOld(s, r);
      OtherStepsAndRuns(s, step, r);
  }

  lemma RunIsOld(s: Sys, r: Id)
    requires Inv(s) && r in s.q.runs
    ensures r < s.q.nextId
  {
  }

  lemma DecidedRecover(s: Sys, ids: seq<Id>, r: Id)
    requires Enabled(s, Recover(ids)) && r in s.q.runs
    ensures var q' := Next(s, Recover(ids)).q; r in q'.runs && q'.runs[r].status == s.q.runs[r].status
  {
    RecoverKeepsRuns(s.q, s.now, RetryDelay(1), ids);
  }

  lemma DecidedFinish(s: Sys, w: Id, result: HandlerResult, r: Id)
    requires Inv(s) && w in s.workers && r in s.q.runs && Decided(s.q.runs[r].status)
    ensures var q' := Next(s, Finish(w, result)).q; r in q'.runs && q'.runs[r].status == s.q.runs[r].status
  {
    ClaimFacts(s, w);
    FinishRun(s, w, result, r);
    DecidedIsOver(s.q.jobs, s.q.runs, r);
    OverChildrenStand(s, Finish(w, result), r);
    SameVerdict(s.q.jobs, Next(s, Finish(w, result)).q.jobs, r);
    RefreshKeepsVerdict(s.q.jobs, r, s.q.runs[r]);
  }

  /** A succeeded, failed or partially failed run keeps that verdict for ever. */
  lemma {:induction false} VerdictsAreStable(s: Sys, steps: seq<Step>, r: Id)
    requires Inv(s) && Valid(s, steps) && r in s.q.runs && Decided(s.q.runs[r].status)
    ensures r in After(s, steps).q.runs && After(s, steps).q.runs[r].status == s.q.runs[r].status
    decreases |steps|
  {
    if steps != [] {
      DecidedStep(s, steps[0], r);
      StepKeeps(s, steps[0]);
      VerdictsAreStable(Next(s, steps[0]), steps[1..], r);
    }
  }

  // ---------- counters ----------

  /** The job's newest execution was closed by lease recovery. */
  predicate LeaseLost(execs: map<Id, Execution>, latest: map<Id, Id>, i: Id) {
    i in latest && latest[i] in execs && execs[latest[i]].error == Some(LeaseExpired)
  }

  /** Children that failed in their handler, not by a lost lease. */
  function HandlerFailures(jobs: map<Id, Job>, execs: map<Id, Execution>, latest: map<Id, Id>, r: Id): set<Id> {
    set i | i in ChildrenIn(jobs, r, {Failed}) && !LeaseLost(execs, latest, i)
  }

  ghost predicate CounterOk(q: Queue, latest: map<Id, Id>, r: Id) {
    r in q.runs && |HandlerFailures(q.jobs, q.execs, latest, r)| <= q.runs[r].failed <= |ChildrenIn(q.jobs, r, {Failed})|
  }

  /** Failed children only accumulate, and a handler failure stays one. */
  lemma CounterFrame(q: Queue, q': Queue, latest: map<Id, Id>, latest': map<Id, Id>, r: Id)
    requires CounterOk(q, latest, r) && r in q'.runs && q'.runs[r].failed == q.runs[r].failed
    requires forall i | i in q.jobs && q.jobs[i].run == Some(r) && q.jobs[i].status == Failed ::
               i in q'.jobs && q'.jobs[i].run == Some(r) && q'.jobs[i].status == Failed
    requires forall i | i in q'.jobs && q'.jobs[i].run == Some(r) && q'.jobs[i].status == Failed && !LeaseLost(q'.execs, latest', i) ::
               i in q.jobs && q.jobs[i].run == Some(r) && q.jobs[i].status == Failed && !LeaseLost(q.execs, latest, i)
    ensures CounterOk(q', latest', r)
  {
    CardSubset(ChildrenIn(q.jobs, r, {Failed}), ChildrenIn(q'.jobs, r, {Failed}));
    CardSubset(HandlerFailures(q'.jobs, q'.execs, latest', r), HandlerFailures(q.jobs, q.execs, latest, r));
  }

  lemma RefreshedCounter(q: Queue, latest: map<Id, Id>, r: Id)
    requires r in q.runs && q.runs[r].failed == |ChildrenIn(q.jobs, r, {Failed})|
    ensures CounterOk(q, latest, r)
  {
    CardSubset(HandlerFailures(q.jobs, q.execs, latest, r), ChildrenIn(q.jobs, r, {Failed}));
  }

  lemma ClaimCounter(q: Queue, now: Time, w: Id, lease: Time, id: Id, latest: map<Id, Id>, r: Id)
    requires id in q.jobs && q.jobs[id].status == Queued && q.nextId !in q.execs && CounterOk(q, latest, r)
    ensures CounterOk(ClaimJob(q, now, w, lease, id), latest[id := q.nextId], r)
  {
    CounterFrame(q, ClaimJob(q, now, w, lease, id), latest, latest[id := q.nextId], r);
  }

  lemma CancelCounter(q: Queue, now: Time, task: Id, latest: map<Id, Id>, r: Id)
    requires CounterOk(q, latest, r)
    ensures CounterOk(CancelTask(q, now, task), latest, r)
  {
    CounterFrame(q, CancelTask(q, now, task), latest, latest, r);
  }

  lemma ApproveCounter(q: Queue, now: Time, job: Id, latest: map<Id, Id>, r: Id)
    requires job in q.challenges && CounterOk(q, latest, r)
    ensures CounterOk(Approve(q, now, job), latest, r)
  {
    CounterFrame(q, Approve(q, now, job), latest, latest, r);
  }

  lemma InsertCounter(q: Queue, now: Time, b: Batch, latest: map<Id, Id>, r: Id)
    requires RowsOk(q.jobs, q.execs, q.runs, q.nextId) && GoodBatch(q, now, b)
    requires r in q.runs ==> CounterOk(q, latest, r)
    requires r in q.runs || r in b.runs
    ensures CounterOk(Enqueue(q, b), latest, r)
  {
    var q' := Enqueue(q, b);
    if r in q.runs {
      assert r !in b.runs;
      CounterFrame(q, q', latest, latest, r);
    } else {
      assert ChildrenIn(q'.jobs, r, {Failed}) == {};
      RefreshedCounter(q', latest, r);
    }
  }

  /** A failed job has an execution of its own. */
  lemma FailedHasExec(jobs: map<Id, Job>, execs: map<Id, Execution>, latest: map<Id, Id>, i: Id)
    requires Ledger(jobs, execs, latest) && i in jobs && RowShape(jobs[i]) && jobs[i].status == Failed
    ensures i in latest && latest[i] in execs && execs[latest[i]].job == i
  {
    assert JobLedger(jobs[i], execs, latest, i);
  }

  /** A finish of one run's child leaves the failures of every other run alone. */
  lemma OtherRunCounter(q: Queue, q': Queue, latest: map<Id, Id>, c: Claim, r: Id)
    requires Ledger(q.jobs, q.execs, latest) && (forall i | i in q.jobs :: RowShape(q.jobs[i])) && CounterOk(q, latest, r)
    requires c.job in q.jobs && q.jobs[c.job].run != Some(r) && c.exec in q.execs && q.execs[c.exec].job == c.job
    requires q'.jobs.Keys == q.jobs.Keys && q'.jobs[c.job].run == q.jobs[c.job].run
    requires forall i | i in q.jobs && i != c.job :: q'.jobs[i] == q.jobs[i]
    requires q'.execs.Keys == q.execs.Keys && forall e | e in q.execs && e != c.exec :: q'.execs[e] == q.execs[e]
    requires r in q'.runs && q'.runs[r] == q.runs[r]
    ensures CounterOk(q', latest, r)
  {
    forall i | i in q.jobs && q.jobs[i].run == Some(r) && q.jobs[i].status == Failed
      ensures LeaseLost(q'.execs, latest, i) == LeaseLost(q.execs, latest, i)
    {
      FailedHasExec(q.jobs, q.execs, latest, i);
    }
    CounterFrame(q, q', latest, latest, r);
  }

  lemma FinishedCounter(q: Queue, latest: map<Id, Id>, now: Time, c: Claim, row: Job, status: ExecStatus, error: Option<ErrorCode>, r: Id)
    requires Ledger(q.jobs, q.execs, latest) && (forall i | i in q.jobs :: RowShape(q.jobs[i])) && CounterOk(q, latest, r)
    requires c.job in q.jobs && q.jobs[c.job].run == c.run && RunKnown(q, c.run) && row.run == c.run
    requires c.exec in q.execs && q.execs[c.exec].job == c.job
    ensures CounterOk(FinishedQueue(q, now, c, row, status, error), latest, r)
  {
    var q1 := q.(jobs := q.jobs[c.job := row], execs := CloseExec(q.execs, c.exec, status, error));
    if c.run == Some(r) {
      RefreshedCounter(Refresh(q1, c.run, now), latest, r);
    } else {
      OtherRunCounter(q, q1, latest, c, r);
      StaleWaitCounter(q1, latest, now, c.run, r);
    }
  }

  lemma StaleWaitCounter(q: Queue, latest: map<Id, Id>, now: Time, run: Option<Id>, r: Id)
    requires RunKnown(q, run) && CounterOk(q, latest, r)
    ensures CounterOk(Refresh(q, run, now), latest, r)
  {
    var q' := Refresh(q, run, now);
    if run == Some(r) {
      RefreshedCounter(q', latest, r);
    } else {
      CounterFrame(q, q', latest, latest, r);
    }
  }

  lemma FinishTxCounter(q: Queue, latest: map<Id, Id>, now: Time, w: Id, c: Claim, result: HandlerResult, r: Id)
    requires Ledger(q.jobs, q.execs, latest) && (forall i | i in q.jobs :: RowShape(q.jobs[i])) && CounterOk(q, latest, r)
    requires ClaimOk(q.jobs, q.execs, now, w, c)
    ensures var tx := FinishTx(q, now, c, w, result); tx.Some? ==> CounterOk(tx.value, latest, r)
  {
    if FinishTx(q, now, c, w, result).Some? {
      if HoldsLease(q.jobs, c.job, w) {
        HeldFinish(q, now, c, w, result);
        FinishedCounter(q, latest, now, c, FinishedRow(q.jobs[c.job], now, c, result), FinishedExec(c, result), FinishedError(result), r);
      } else {
        StaleFinish(q, now, c, w, result);
        StaleWaitOnlyRefreshes(q, latest, now, w, c, HandlerCode(ToFailure(result).code));
        StaleWaitCounter(q, latest, now, c.run, r);
      }
    }
  }

  lemma RecoverCounter(q: Queue, now: Time, delay: Time, latest: map<Id, Id>, ids: set<Id>, r: Id)
    requires forall i | i in ids ::
               i in q.jobs && q.jobs[i].status == Running && q.jobs[i].attempt > 0 && JobLedger(q.jobs[i], q.execs, latest, i)
    requires CounterOk(q, latest, r)
    ensures CounterOk(RecoverSet(q, now, delay, ids), latest, r)
  {
    CounterFrame(q, RecoverSet(q, now, delay, ids), latest, latest, r);
  }

  lemma FinishCounter(s: Sys, w: Id, result: HandlerResult, r: Id)
    requires w in s.workers && ClaimOk(s.q.jobs, s.q.execs, s.now, w, s.workers[w]) && Ledger(s.q.jobs, s.q.execs, s.latest)
    requires (forall i | i in s.q.jobs :: RowShape(s.q.jobs[i])) && CounterOk(s.q, s.latest, r)
    ensures CounterOk(Next(s, Finish(w, result)).q, s.latest, r)
  {
    FinishTxCounter(s.q, s.latest, s.now, w, s.workers[w], result, r);
  }

  lemma FinishCounterStep(s: Sys, w: Id, result: HandlerResult, r: Id)
    requires Inv(s) && w in s.workers && r in Next(s, Finish(w, result)).q.runs && (r in s.q.runs ==> CounterOk(s.q, s.latest, r))
    ensures CounterOk(Next(s, Finish(w, result)).q, Next(s, Finish(w, result)).latest, r)
  {
    FinishKeepsRuns(s, w, result);
    NextFinish(s, w, result);
    HeldFinishCounter(s, w, result, r);
  }

  lemma HeldFinishCounter(s: Sys, w: Id, result: HandlerResult, r: Id)
    requires Inv(s) && w in s.workers && CounterOk(s.q, s.latest, r)
    ensures CounterOk(Next(s, Finish(w, result)).q, s.latest, r)
  {
    ClaimFacts(s, w);
    FinishCounter(s, w, result, r);
  }

  lemma RecoverListedCounter(q: Queue, now: Time, latest: map<Id, Id>, ids: seq<Id>, r: Id)
    requires ListsExpired(q.jobs, now, ids) && Ledger(q.jobs, q.execs, latest) && CounterOk(q, latest, r)
    requires forall i | i in q.jobs :: RowShape(q.jobs[i])
    ensures CounterOk(RecoverJobs(q, now, RetryDelay(1), ids), latest, r)
  {
    RecoveryIsOneUpdate(q, now, RetryDelay(1), ids);
    forall i | i in Elements(ids)
      ensures JobLedger(q.jobs[i], q.execs, latest, i) && q.jobs[i].status == Running && q.jobs[i].attempt > 0
    {
      assert RowShape(q.jobs[i]);
    }
    RecoverCounter(q, now, RetryDelay(1), latest, Elements(ids), r);
  }

  lemma RecoverCounterStep(s: Sys, ids: seq<Id>, r: Id)
    requires Inv(s) && Enabled(s, Recover(ids)) && r in Next(s, Recover(ids)).q.runs
    requires r in s.q.runs ==> CounterOk(s.q, s.latest, r)
    ensures CounterOk(Next(s, Recover(ids)).q, Next(s, Recover(ids)).latest, r)
  {
    RecoverKeepsRuns(s.q, s.now, RetryDelay(1), ids);
    RecoverListedCounter(s.q, s.now, s.latest, ids, r);
  }

  lemma {:induction false} RecoverKeepsRuns(q: Queue, now: Time, delay: Time, ids: seq<Id>)
    requires forall i | i in ids :: i in q.jobs
    ensures RecoverJobs(q, now, delay, ids).runs == q.runs
    decreases |ids|
  {
    if ids != [] {
      RecoverKeepsRuns(RecoverOne(q, now, delay, ids[0]), now, delay, ids[1..]);
    }
  }

  lemma CounterStep(s: Sys, step: Step, r: Id)
    requires Enabled(s, step) && r in Next(s, step).q.runs && (r in s.q.runs ==> CounterOk(s.q, s.latest, r)) && Inv(s)
    ensures CounterOk(Next(s, step).q, Next(s, step).latest, r)
  {
    match step
    case Finish(w, result) => FinishCounterStep(s, w, result, r);
    case Recover(ids) => RecoverCounterStep(s, ids, r);
    case Insert(b) => InsertCounterStep(s, b, r);
    case _ => OtherCounterStep(s, step, r);
  }

  lemma InsertCounterStep(s: Sys, b: Batch, r: Id)
    requires Inv(s) && Enabled(s, Insert(b)) && r in Next(s, Insert(b)).q.runs && (r in s.q.runs ==> CounterOk(s.q, s.latest, r))
    ensures CounterOk(Next(s, Insert(b)).q, Next(s, Insert(b)).latest, r)
  {
    InsertCounter(s.q, s.now, b, s.latest, r);
  }

  lemma OtherCounterStep(s: Sys, step: Step, r: Id)
    requires Enabled(s, step) && !step.Finish? && !step.Recover? && !step.Insert? && Inv(s)
    requires r in Next(s, step).q.runs && (r in s.q.runs ==> CounterOk(s.q, s.latest, r))
    ensures CounterOk(Next(s, step).q, Next(s, step).latest, r)
  {
    match step
    case Take(w, id) => ClaimCounter(s.q, s.now, w, LEASE_DURATION, id, s.latest, r);
    case Confirm(_, job) => ApproveCounter(s.q, s.now, job, s.latest, r);
    case Cancel(task) => CancelCounter(s.q, s.now, task, s.latest, r);
    case _ =>
  }

  lemma FinishKeepsRuns(s: Sys, w: Id, result: HandlerResult)
    requires w in s.workers
    ensures Next(s, Finish(w, result)).q.runs.Keys == s.q.runs.Keys
  {
    NextFinish(s, w, result);
    TxKeepsRuns(s.q, s.now, s.workers[w], w, result);
  }

  lemma TxKeepsRuns(q: Queue, now: Time, c: Claim, w: Id, result: HandlerResult)
    ensures FinishTx(q, now, c, w, result).Some? ==> FinishTx(q, now, c, w, result).value.runs.Keys == q.runs.Keys
  {
  }

  ghost predicate CountersOk(s: Sys) {
    forall r | r in s.q.runs :: CounterOk(s.q, s.latest, r)
  }

  lemma {:induction false} CounterRun(s: Sys, steps: seq<Step>)
    requires Inv(s) && CountersOk(s) && Valid(s, steps)
    ensures CountersOk(After(s, steps))
    decreases |steps|
  {
    if steps != [] {
      forall r | r in Next(s, steps[0]).q.runs {
        CounterStep(s, steps[0], r);
      }
      StepKeeps(s, steps[0]);
      CounterRun(Next(s, steps[0]), steps[1..]);
    }
  }

  /** The totals are exact; failed_jobs lags at most by the children that lease recovery failed. */
  lemma BatchCounters(s: Sys, r: Id)
    requires Reachable(s) && r in s.q.runs
    ensures s.q.runs[r].total == |Children(s.q.jobs, r)|
    ensures s.q.runs[r].succeeded == |ChildrenIn(s.q.jobs, r, {Succeeded})|
    ensures |HandlerFailures(s.q.jobs, s.q.execs, s.latest, r)| <= s.q.runs[r].failed <= |ChildrenIn(s.q.jobs, r, {Failed})|
  {
    var start, steps :| Valid(Initial(start), steps) && After(Initial(start), steps) == s;
    RunKeeps(Initial(start), steps);
    CounterRun(Initial(start), steps);
    assert RunOk(s.q.jobs, r, s.q.runs[r]) && CounterOk(s.q, s.latest, r);
  }
}
