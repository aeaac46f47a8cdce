/** Safety of the job engine, for every reachable state and every run. */
module EngineTheorems {
  import opened Rows
  import opened Policy
  import opened System
  import opened Engine
  import opened Invariant
  import opened Preservation

  ghost predicate Reachable(s: Sys) {
    exists start, steps :: Valid(Initial(start), steps) && After(Initial(start), steps) == s
  }

  lemma ReachableInv(s: Sys)
    requires Reachable(s)
    ensures Inv(s)
  {
    var start, steps :| Valid(Initial(start), steps) && After(Initial(start), steps) == s;
    RunKeeps(Initial(start), steps);
  }

  lemma {:induction false} OneMore(s: Sys, steps: seq<Step>, step: Step)
    requires Valid(s, steps) && Enabled(After(s, steps), step)
    ensures Valid(s, steps + [step]) && After(s, steps + [step]) == Next(After(s, steps), step)
    decreases |steps|
  {
    if steps == [] {
      assert steps + [step] == [step];
    } else {
      assert (steps + [step])[1..] == steps[1..] + [step];
      OneMore(Next(s, steps[0]), steps[1..], step);
    }
  }

  lemma EmptyIsReachable(now: Time)
    ensures Reachable(Initial(now))
  {
    assert Valid(Initial(now), []) && After(Initial(now), []) == Initial(now);
  }

  /** A step from a reachable state leads to a reachable state. */
  lemma ReachStep(s: Sys, step: Step)
    requires Reachable(s) && Enabled(s, step)
    ensures Reachable(Next(s, step))
  {
    var start, steps :| Valid(Initial(start), steps) && After(Initial(start), steps) == s;
    OneMore(Initial(start), steps, step);
  }

  // ---------- fencing ----------

  /** The claim a worker holds is the job's newest claim, and its attempt is still open. */
  ghost predicate IsLatestClaim(s: Sys, c: Claim) {
    && c.job in s.q.jobs && s.q.jobs[c.job].status == Running && s.q.jobs[c.job].attempt == c.attempt
    && c.job in s.latest && s.latest[c.job] == c.exec
  }

  /** The owner comparison is exactly an attempt comparison. */
  lemma OwnerGuardIsAttemptGuard(s: Sys, w: Id)
    requires Reachable(s) && w in s.workers
    ensures HoldsLease(s.q.jobs, s.workers[w].job, w) <==> IsLatestClaim(s, s.workers[w])
  {
    ReachableInv(s);
    var c := s.workers[w];
    assert ClaimOk(s.q.jobs, s.q.execs, s.now, w, c);
    if HoldsLease(s.q.jobs, c.job, w) {
      HolderHasLatest(s.q, s.latest, s.now, w, c);
    }
  }

  /** A finish touches only the row and the execution of a claim that is still the newest. */
  lemma Fencing(s: Sys, w: Id, result: HandlerResult)
    requires Reachable(s) && w in s.workers
    ensures var c, q' := s.workers[w], Next(s, Finish(w, result)).q;
            && q'.jobs.Keys == s.q.jobs.Keys && q'.execs.Keys == s.q.execs.Keys
            && (forall i | i in s.q.jobs && q'.jobs[i] != s.q.jobs[i] :: i == c.job && IsLatestClaim(s, c))
            && (forall e | e in s.q.execs && q'.execs[e] != s.q.execs[e] :: e == c.exec && IsLatestClaim(s, c))
  {
    OwnerGuardIsAttemptGuard(s, w);
    FinishInReachable(s, w, result);
  }

  lemma FinishInReachable(s: Sys, w: Id, result: HandlerResult)
    requires Reachable(s) && w in s.workers
    ensures var c, q' := s.workers[w], Next(s, Finish(w, result)).q;
            && c.job in s.q.jobs
            && q'.jobs in {s.q.jobs, JobsAfterFinish(s.q.jobs, s.now, w, c, result)}
            && q'.execs in {s.q.execs, ExecsAfterFinish(s.q, w, c, result)}
  {
    ReachableInv(s);
    FinishInState(s, w, result);
  }

  lemma FinishInState(s: Sys, w: Id, result: HandlerResult)
    requires Inv(s) && w in s.workers
    ensures var c, q' := s.workers[w], Next(s, Finish(w, result)).q;
            && c.job in s.q.jobs
            && ClaimRow(s.q.jobs[c.job], s.now, w, c)
            && var done := FinishTx(s.q, s.now, c, w, result).Some?;
            && q'.jobs == (if done then JobsAfterFinish(s.q.jobs, s.now, w, c, result) else s.q.jobs)
            && q'.execs == (if done then ExecsAfterFinish(s.q, w, c, result) else s.q.execs)
  {
    HeldClaim(s, w);
    FinishTables(s.q, s.latest, s.now, w, s.workers[w], result);
    NextFinish(s, w, result);
  }

  lemma HeldClaim(s: Sys, w: Id)
    requires Inv(s) && w in s.workers
    ensures Ledger(s.q.jobs, s.q.execs, s.latest) && ClaimOk(s.q.jobs, s.q.execs, s.now, w, s.workers[w])
    ensures RowShape(s.q.jobs[s.workers[w].job])
  {
    assert ClaimOk(s.q.jobs, s.q.execs, s.now, w, s.workers[w]);
  }

  lemma FinishTables(q: Queue, latest: map<Id, Id>, now: Time, w: Id, c: Claim, result: HandlerResult)
    requires Ledger(q.jobs, q.execs, latest) && ClaimOk(q.jobs, q.execs, now, w, c) && RowShape(q.jobs[c.job])
    ensures var tx := FinishTx(q, now, c, w, result);
            tx.Some? ==>
              && tx.value.jobs == JobsAfterFinish(q.jobs, now, w, c, result)
              && tx.value.execs == ExecsAfterFinish(q, w, c, result)
  {
    FinishEffect(q, latest, now, w, c, result);
  }

  lemma NextFinish(s: Sys, w: Id, result: HandlerResult)
    requires w in s.workers
    ensures Next(s, Finish(w, result)).q == match FinishTx(s.q, s.now, s.workers[w], w, result) case None => s.q case Some(q) => q
    ensures Next(s, Finish(w, result)).latest == s.latest
  {
  }

  /** Fencing rests on one claim per worker: a second, older claim of the same worker passes the
      owner guard and finishes somebody else's attempt. */
  lemma OverlappingClaimsBreakTheLedger(q: Queue, latest: map<Id, Id>, now: Time, w: Id, c: Claim)
    requires Ledger(q.jobs, q.execs, latest) && HoldsLease(q.jobs, c.job, w) && RunKnown(q, c.run)
    requires c.exec in q.execs && q.execs[c.exec].job == c.job && q.execs[c.exec].attempt == c.attempt
    requires c.attempt < q.jobs[c.job].attempt
    ensures var q' := CompleteJob(q, now, c, w);
            && q'.Some? && q'.value.jobs[c.job].status == Succeeded
            && q'.value.execs[latest[c.job]].status == ExecRunning
            && !Ledger(q'.value.jobs, q'.value.execs, latest)
  {
    var q' := CompleteJob(q, now, c, w).value;
    assert JobLedger(q.jobs[c.job], q.execs, latest, c.job);
    assert !JobLedger(q'.jobs[c.job], q'.execs, latest, c.job);
  }

  /** So behind the owner guard a completion keeps the ledger exactly when the claim is of the row's
      current attempt, which one claim per worker guarantees. */
  lemma OwnerGuardSufficesIff(q: Queue, latest: map<Id, Id>, now: Time, w: Id, c: Claim)
    requires Ledger(q.jobs, q.execs, latest) && OnePerAttempt(q.execs) && RunKnown(q, c.run)
    requires HoldsLease(q.jobs, c.job, w) && RowShape(q.jobs[c.job])
    requires c.exec in q.execs && q.execs[c.exec].job == c.job && q.execs[c.exec].attempt == c.attempt
    ensures var q' := CompleteJob(q, now, c, w);
            q'.Some? && (Ledger(q'.value.jobs, q'.value.execs, latest) <==> c.attempt == q.jobs[c.job].attempt)
  {
    NoLaterAttempt(q, latest, c);
    if c.attempt == q.jobs[c.job].attempt {
      CurrentClaimKeepsLedger(q, latest, now, w, c);
    } else {
      OverlappingClaimsBreakTheLedger(q, latest, now, w, c);
    }
  }

  lemma NoLaterAttempt(q: Queue, latest: map<Id, Id>, c: Claim)
    requires Ledger(q.jobs, q.execs, latest) && OnePerAttempt(q.execs) && c.job in q.jobs && q.jobs[c.job].attempt > 0
    requires c.exec in q.execs && q.execs[c.exec].job == c.job && q.execs[c.exec].attempt == c.attempt
    ensures c.attempt <= q.jobs[c.job].attempt && c.job in latest && latest[c.job] in q.execs
    ensures Mirrors(q.jobs[c.job].status, q.execs[latest[c.job]].status)
    ensures c.attempt == q.jobs[c.job].attempt ==> c.exec == latest[c.job]
  {
    assert JobLedger(q.jobs[c.job], q.execs, latest, c.job);
  }

  lemma CurrentClaimKeepsLedger(q: Queue, latest: map<Id, Id>, now: Time, w: Id, c: Claim)
    requires Ledger(q.jobs, q.execs, latest) && RunKnown(q, c.run) && HoldsLease(q.jobs, c.job, w) && q.jobs[c.job].attempt > 0
    requires c.job in latest && c.exec == latest[c.job] && c.exec in q.execs && q.execs[c.exec].job == c.job
    requires q.execs[c.exec].status == ExecRunning
    ensures var q' := CompleteJob(q, now, c, w);
            q'.Some? && Ledger(q'.value.jobs, q'.value.execs, latest)
  {
    var row := q.jobs[c.job].(status := Succeeded, lease := None);
    forall i | i in q.jobs {
      CloseLedgerAt(q, latest, c, row, ExecSucceeded, None, i);
    }
  }

  // ---------- lease mutual exclusion ----------

  /** Before its deadline a claim owns its row, so no other worker holds an unexpired claim on it. */
  lemma LeaseExclusion(s: Sys, w: Id, v: Id)
    requires Reachable(s) && w in s.workers && s.now < s.workers[w].deadline
    ensures IsLatestClaim(s, s.workers[w])
    ensures s.q.jobs[s.workers[w].job].lease == Some(Lease(w, s.workers[w].deadline))
    ensures v in s.workers && v != w && s.workers[v].job == s.workers[w].job ==> s.workers[v].deadline <= s.now
  {
    ReachableInv(s);
    assert ClaimOk(s.q.jobs, s.q.execs, s.now, w, s.workers[w]);
    HolderHasLatest(s.q, s.latest, s.now, w, s.workers[w]);
    if v in s.workers && v != w {
      assert ClaimOk(s.q.jobs, s.q.execs, s.now, v, s.workers[v]);
    }
  }

  // ---------- execution ledger ----------

  function ExecsIn(execs: map<Id, Execution>, job: Id, status: ExecStatus): set<Id> {
    set e | e in ExecsOf(execs, job) && execs[e].status == status
  }

  lemma ExecutionLedger(s: Sys, i: Id)
    requires Reachable(s) && i in s.q.jobs
    ensures |ExecsOf(s.q.execs, i)| == s.q.jobs[i].attempt
    ensures forall e, f | e in ExecsOf(s.q.execs, i) && f in ExecsOf(s.q.execs, i) && e != f ::
              s.q.execs[e].attempt != s.q.execs[f].attempt
    ensures |ExecsIn(s.q.execs, i, ExecRunning)| == if s.q.jobs[i].status == Running then 1 else 0
    ensures |ExecsIn(s.q.execs, i, ExecSucceeded)| == if s.q.jobs[i].status == Succeeded then 1 else 0
  {
    ReachableInv(s);
    var j, execs := s.q.jobs[i], s.q.execs;
    assert JobLedger(j, execs, s.latest, i) && RowShape(j);
    assert j.attempt == 0 ==> ExecsOf(execs, i) == {};
    assert ExecsIn(execs, i, ExecRunning) == if j.status == Running then {s.latest[i]} else {};
    assert ExecsIn(execs, i, ExecSucceeded) == if j.status == Succeeded then {s.latest[i]} else {};
  }
}
