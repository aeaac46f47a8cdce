/** Manual validation: an approval that arrives before the job is parked is lost for good. */
module Approval {
  import opened Rows
  import opened Policy
  import opened System
  import opened Engine
  import opened Invariant
  import opened Preservation
  import opened EngineTheorems
  import opened Evolution
  import opened Catalog
  import opened Scheduling
  import C = Certificates

  /** ApproveManualChallenge requeues the job if and only if the job is already parked. */
  lemma ApprovalRequeuesIff(q: Queue, now: Time, job: Id)
    requires job in q.challenges && job in q.jobs
    ensures Approve(q, now, job).jobs[job] != q.jobs[job] <==> q.jobs[job].status == WaitingUser
    ensures Approve(q, now, job).challenges[job].status == ChallengeApproved
  {
  }

  predicate IsApproved(q: Queue, job: Id) {
    job in q.challenges && q.challenges[job].status == ChallengeApproved
  }

  /** Nobody holds a claim of the job. */
  ghost predicate Unattended(workers: map<Id, Claim>, job: Id) {
    forall w | w in workers :: workers[w].job != job
  }

  /** Parked, with nothing left to approve and nobody left to present a new challenge. */
  ghost predicate Stranded(s: Sys, job: Id) {
    && job in s.q.jobs && s.q.jobs[job].status == WaitingUser
    && IsApproved(s.q, job) && Unattended(s.workers, job)
  }

  /** The handler saves the challenge, the user approves at once, the worker parks the job. */
  lemma EarlyApprovalStrands(s: Sys, w: Id, certificate: Id, failure: Failure)
    requires Inv(s) && w in s.workers && HoldsLease(s.q.jobs, s.workers[w].job, w)
    requires IsLatestWaiting(s.q.challenges, certificate, s.workers[w].job)
    requires forall v | v in s.workers && v != w :: s.workers[v].job != s.workers[w].job
    requires failure.waitingUser
    ensures var c := s.workers[w];
            var s1 := Next(s, Confirm(certificate, c.job));
            w in s1.workers && Stranded(Next(s1, Finish(w, Classified(failure))), c.job)
  {
    var c := s.workers[w];
    var s1 := Next(s, Confirm(certificate, c.job));
    ClaimRunKnown(s, w);
    assert s1.q.jobs == s.q.jobs;
    ParksTheJob(s1, w, failure);
  }

  lemma ParksTheJob(s: Sys, w: Id, failure: Failure)
    requires w in s.workers && HoldsLease(s.q.jobs, s.workers[w].job, w) && RunKnown(s.q, s.workers[w].run)
    requires failure.waitingUser
    ensures var c, s' := s.workers[w], Next(s, Finish(w, Classified(failure)));
            && c.job in s'.q.jobs && s'.q.jobs[c.job].status == WaitingUser
            && s'.q.challenges == s.q.challenges && s'.workers == s.workers - {w}
  {
  }

  lemma ClaimRunKnown(s: Sys, w: Id)
    requires Inv(s) && w in s.workers
    ensures RunKnown(s.q, s.workers[w].run)
  {
    assert ClaimOk(s.q.jobs, s.q.execs, s.now, w, s.workers[w]);
  }

  // ---------- exactly when a job gets stranded ----------

  /** Worker `w` holds a claim of the job, and no other worker does. */
  ghost predicate LastHolder(s: Sys, w: Id, job: Id) {
    && w in s.workers && s.workers[w].job == job
    && forall v | v in s.workers && v != w :: s.workers[v].job != job
  }

  /** The steps that strand a job: its challenge is approved and its last claim is let go, while it is
      parked already or by parking it. */
  ghost predicate Strands(s: Sys, step: Step, job: Id)
    requires Enabled(s, step)
  {
    && job in s.q.jobs && IsApproved(s.q, job)
    && match step
       case Abandon(w) => LastHolder(s, w, job) && s.q.jobs[job].status == WaitingUser
       case Finish(w, result) =>
         && LastHolder(s, w, job)
         && (s.q.jobs[job].status == WaitingUser
             || (HoldsLease(s.q.jobs, job, w) && !result.Returned? && ToFailure(result).waitingUser))
       case _ => false
  }

  /** A step parks a job if and only if it is the finish of a live claim that waits for the user. */
  lemma ParksIff(s: Sys, step: Step, job: Id)
    requires Inv(s) && Enabled(s, step) && job in s.q.jobs && s.q.jobs[job].status != WaitingUser
    ensures job in Next(s, step).q.jobs
    ensures Next(s, step).q.jobs[job].status == WaitingUser
            <==> && step.Finish? && s.workers[step.worker].job == job && HoldsLease(s.q.jobs, job, step.worker)
                 && !step.result.Returned? && ToFailure(step.result).waitingUser
  {
    StepChanges(s, step, job);
    if step.Finish? {
      ClaimRunKnown(s, step.worker);
      HeldFinishCommits(s.q, s.now, s.workers[step.worker], step.worker, step.result);
    }
    RowParksIff(s.q.jobs[job], Next(s, step).q.jobs[job], s.now, ChangeOf(s, step, job));
    ParkingChange(s, step, job);
  }

  lemma RowParksIff(j: Job, j': Job, now: Time, change: Change)
    requires Changes(j, j', now, change) && j.status != WaitingUser
    ensures j'.status == WaitingUser <==> change == Parks
  {
  }

  lemma ParkingChange(s: Sys, step: Step, job: Id)
    requires Enabled(s, step) && job in s.q.jobs
    requires step.Finish? && HoldsLease(s.q.jobs, s.workers[step.worker].job, step.worker) ==>
               FinishTx(s.q, s.now, s.workers[step.worker], step.worker, step.result).Some?
    ensures ChangeOf(s, step, job) == Parks
            <==> && step.Finish? && s.workers[step.worker].job == job && HoldsLease(s.q.jobs, job, step.worker)
                 && !step.result.Returned? && ToFailure(step.result).waitingUser
  {
  }

  lemma HeldFinishCommits(q: Queue, now: Time, c: Claim, w: Id, result: HandlerResult)
    requires RunKnown(q, c.run)
    ensures HoldsLease(q.jobs, c.job, w) ==> FinishTx(q, now, c, w, result).Some?
  {
  }

  /** Only an approval takes a parked job out of waiting. */
  lemma StaysParkedUnless(s: Sys, step: Step, job: Id)
    requires Inv(s) && Enabled(s, step) && job in s.q.jobs && s.q.jobs[job].status == WaitingUser
    ensures job in Next(s, step).q.jobs
    ensures Next(s, step).q.jobs[job].status == WaitingUser <==> !(step.Confirm? && step.job == job)
  {
    StepChanges(s, step, job);
  }

  lemma ApprovedAfter(s: Sys, step: Step, job: Id)
    requires Enabled(s, step)
    ensures IsApproved(Next(s, step).q, job)
            <==> if step.Confirm? && step.job == job then true
                 else if step.Present? && s.workers[step.worker].job == job then false else IsApproved(s.q, job)
  {
    match step
    case Recover(ids) => RecoverLeavesChallenges(s.q, s.now, RetryDelay(1), ids);
    case _ =>
  }

  lemma RecoverLeavesChallenges(q: Queue, now: Time, delay: Time, ids: seq<Id>)
    requires ListsExpired(q.jobs, now, ids)
    ensures RecoverJobs(q, now, delay, ids).challenges == q.challenges
  {
    RecoveryIsOneUpdate(q, now, delay, ids);
  }

  lemma UnattendedAfter(s: Sys, step: Step, job: Id)
    requires Enabled(s, step)
    ensures Unattended(Next(s, step).workers, job)
            <==> match step
                 case Take(_, id) => Unattended(s.workers, job) && id != job
                 case Abandon(w) => Unattended(s.workers, job) || LastHolder(s, w, job)
                 case Finish(w, _) => Unattended(s.workers, job) || LastHolder(s, w, job)
                 case _ => Unattended(s.workers, job)
  {
    match step
    case Take(w, id) => TakenWorkers(s, w, id, job);
    case Abandon(w) => FewerWorkers(s, w, job);
    case Finish(w, result) =>
      assert Next(s, step).workers == s.workers - {w};
      FewerWorkers(s, w, job);
    case _ =>
  }

  lemma TakenWorkers(s: Sys, w: Id, id: Id, job: Id)
    requires Enabled(s, Take(w, id))
    ensures Unattended(Next(s, Take(w, id)).workers, job) <==> Unattended(s.workers, job) && id != job
  {
    var workers' := Next(s, Take(w, id)).workers;
    assert workers'[w].job == id;
    forall v | v in s.workers
      ensures v in workers' && workers'[v] == s.workers[v]
    {
    }
  }

  lemma FewerWorkers(s: Sys, w: Id, job: Id)
    requires w in s.workers
    ensures Unattended(s.workers - {w}, job) <==> Unattended(s.workers, job) || LastHolder(s, w, job)
  {
    forall v | v in s.workers && v != w
      ensures v in s.workers - {w}
    {
    }
  }

  /** Every way a job can get stranded, and no other. */
  lemma BecomesStrandedIff(s: Sys, step: Step, job: Id)
    requires Inv(s) && Enabled(s, step) && !Stranded(s, job)
    ensures Stranded(Next(s, step), job) <==> Strands(s, step, job)
  {
    ApprovedAfter(s, step, job);
    UnattendedAfter(s, step, job);
    if job !in s.q.jobs {
      NewJobIsNotParked(s, step, job);
    } else if s.q.jobs[job].status == WaitingUser {
      StaysParkedUnless(s, step, job);
    } else {
      ParksIff(s, step, job);
    }
  }

  lemma NewJobIsNotParked(s: Sys, step: Step, job: Id)
    requires Inv(s) && Enabled(s, step) && job !in s.q.jobs
    ensures job in Next(s, step).q.jobs ==> Next(s, step).q.jobs[job].status == Queued
  {
    match step
    case Finish(w, result) => FinishInState(s, w, result);
    case Recover(ids) =>
    case Insert(b) =>
    case _ =>
  }

  // ---------- for ever ----------

  lemma StrandedStep(s: Sys, step: Step, job: Id)
    requires Inv(s) && Stranded(s, job) && Enabled(s, step)
    ensures Stranded(Next(s, step), job)
  {
    StepChanges(s, step, job);
    ChallengeStep(s, step, job);
    WorkersStep(s, step, job);
  }

  lemma ChallengeStep(s: Sys, step: Step, job: Id)
    requires Stranded(s, job) && Enabled(s, step)
    ensures job in Next(s, step).q.challenges && Next(s, step).q.challenges[job] == s.q.challenges[job]
  {
    if step.Recover? {
      RecoveryIsOneUpdate(s.q, s.now, RetryDelay(1), step.ids);
    }
  }

  lemma WorkersStep(s: Sys, step: Step, job: Id)
    requires Stranded(s, job) && Enabled(s, step)
    ensures forall w | w in Next(s, step).workers :: Next(s, step).workers[w].job != job
  {
  }

  /** Recovery, cancellation, a new approval: nothing ever moves a stranded job again. */
  lemma {:induction false} StrandedForever(s: Sys, steps: seq<Step>, job: Id)
    requires Inv(s) && Stranded(s, job) && Valid(s, steps)
    ensures Stranded(After(s, steps), job) && SameIdentity(s.q.jobs[job], After(s, steps).q.jobs[job])
    decreases |steps|
  {
    if steps != [] {
      StrandedStep(s, steps[0], job);
      StepChanges(s, steps[0], job);
      StepKeeps(s, steps[0]);
      StrandedForever(Next(s, steps[0]), steps[1..], job);
    }
  }

  /** It blocks its certificate: every later request for an issuance is answered with in progress. */
  lemma StrandedBlocksIssuance(s: Sys, steps: seq<Step>, job: Id, certs: map<Id, Cert>, c: Id)
    requires Inv(s) && Stranded(s, job) && Valid(s, steps)
    requires C.Issuance(s.q.jobs[job].kind) && s.q.jobs[job].certificate == Some(c)
    ensures var s' := After(s, steps);
            QueueIssue(s'.q, certs, s'.now, c)
            == if c in certs && !certs[c].deleted then IssueInProgress else NoCertificate
  {
    StrandedForever(s, steps, job);
    assert job in LiveIssuances(After(s, steps).q.jobs, c);
  }
}
