/** An overdue job is served after at most the jobs that were already ahead of it. */
module Overtaking {
  import opened Rows
  import opened Policy
  import opened System
  import opened Engine
  import opened Invariant
  import opened Preservation
  import opened EngineTheorems
  import opened Evolution

  /** Queued, uncancelled and strictly past its run time. */
  ghost predicate Overdue(s: Sys, i: Id) {
    i in s.q.jobs && s.q.jobs[i].status == Queued && s.q.jobs[i].nextRunAt < s.now
  }

  /** The queued jobs the claim query may prefer to `i`. */
  function Ahead(jobs: map<Id, Job>, i: Id): set<Id>
    requires i in jobs
  {
    set k | k in jobs && k != i && jobs[k].status == Queued && NotAfter(jobs[k], jobs[i])
  }

  function ClaimCount(steps: seq<Step>): nat {
    if steps == [] then 0 else (if steps[0].Take? then 1 else 0) + ClaimCount(steps[1..])
  }

  /** Somewhere along the run the job is claimed or cancelled. */
  ghost predicate Served(s: Sys, steps: seq<Step>, i: Id)
    requires Valid(s, steps)
    decreases |steps|
  {
    i !in s.q.jobs || s.q.jobs[i].status != Queued || (steps != [] && Served(Next(s, steps[0]), steps[1..], i))
  }

  /** Nothing inserted, retried, recovered or approved gets ahead of an overdue job. */
  lemma NobodyJumpsAhead(s: Sys, step: Step, i: Id, k: Id)
    requires Inv(s) && Overdue(s, i) && Enabled(s, step) && Overdue(Next(s, step), i)
    requires k in Ahead(Next(s, step).q.jobs, i)
    ensures k in Ahead(s.q.jobs, i)
    ensures step.Take? ==> k != step.id
  {
    StepChanges(s, step, i);
    if k in s.q.jobs {
      StepChanges(s, step, k);
    } else {
      InsertedAtNow(s, step, k);
    }
  }

  lemma InsertedAtNow(s: Sys, step: Step, k: Id)
    requires Inv(s) && Enabled(s, step) && k in Next(s, step).q.jobs && k !in s.q.jobs
    ensures Next(s, step).q.jobs[k].nextRunAt == s.now
  {
    if step.Finish? {
      FinishInState(s, step.worker, step.result);
    }
  }

  lemma AheadShrinks(s: Sys, step: Step, i: Id)
    requires Inv(s) && Overdue(s, i) && Enabled(s, step) && Overdue(Next(s, step), i)
    ensures |Ahead(Next(s, step).q.jobs, i)| + (if step.Take? then 1 else 0) <= |Ahead(s.q.jobs, i)|
  {
    var before, after := Ahead(s.q.jobs, i), Ahead(Next(s, step).q.jobs, i);
    forall k | k in after
      ensures k in before && (step.Take? ==> k != step.id)
    {
      NobodyJumpsAhead(s, step, i, k);
    }
    if step.Take? {
      assert step.id in before;
      CardSubset(after, before - {step.id});
    } else {
      CardSubset(after, before);
    }
  }

  lemma StaysOverdue(s: Sys, step: Step, i: Id)
    requires Inv(s) && Overdue(s, i) && Enabled(s, step)
    requires i in Next(s, step).q.jobs && Next(s, step).q.jobs[i].status == Queued
    ensures Overdue(Next(s, step), i)
  {
    StepChanges(s, step, i);
  }

  /** With k jobs ahead, an overdue job is claimed or cancelled within k + 1 claims. */
  lemma {:induction false} NoOvertaking(s: Sys, steps: seq<Step>, i: Id)
    requires Inv(s) && Valid(s, steps) && Overdue(s, i)
    ensures Served(s, steps, i) || ClaimCount(steps) <= |Ahead(s.q.jobs, i)|
    decreases |steps|
  {
    if steps != [] {
      var s' := Next(s, steps[0]);
      StepKeeps(s, steps[0]);
      if i in s'.q.jobs && s'.q.jobs[i].status == Queued {
        StaysOverdue(s, steps[0], i);
        AheadShrinks(s, steps[0], i);
        NoOvertaking(s', steps[1..], i);
      } else {
        assert Served(s', steps[1..], i);
      }
    }
  }

  lemma ServedWithinBound(s: Sys, steps: seq<Step>, i: Id)
    requires Reachable(s) && Valid(s, steps) && Overdue(s, i)
    requires ClaimCount(steps) > |Ahead(s.q.jobs, i)|
    ensures Served(s, steps, i)
  {
    ReachableInv(s);
    NoOvertaking(s, steps, i);
  }
}
