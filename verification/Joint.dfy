/** The job engine joined with the certificate rows its transactions write. */
module Joint {
  import opened Rows
  import opened Catalog
  import opened Policy
  import opened System
  import opened Engine
  import opened Invariant
  import opened Preservation
  import opened EngineTheorems
  import opened Evolution
  import opened Scheduling
  import opened InsertPaths
  import C = Certificates

  datatype Joint = Joint(s: Sys, certs: map<Id, Cert>, versions: map<Id, Version>)

  /** Work is any engine step; a created certificate, a saved version and a request come with the
      rows their transaction inserts. */
  datatype Act =
    | Work(step: Step)
    | Create(c: Id, renewBefore: Time, b: Batch)
    | Request(c: Id)
    | Save(c: Id, version: Id, notAfter: Time, b: Batch)
    | Remove(c: Id)

  ghost predicate Allowed(j: Joint, act: Act) {
    match act
    case Work(step) => Enabled(j.s, step)
    case Create(c, _, b) => c !in j.certs && GoodBatch(j.s.q, j.s.now, b)
    case Request(c) => QueueIssue(j.s.q, j.certs, j.s.now, c).IssueQueued?
    case Save(c, v, _, b) => c in j.certs && v !in j.versions && GoodBatch(j.s.q, j.s.now, b)
    case Remove(c) => c in j.certs
  }

  /** The worker gives up on its claim in this finish. */
  predicate GivesUp(c: Claim, result: HandlerResult) {
    !result.Returned? && !ToFailure(result).waitingUser && RetryOf(c, result).None?
  }

  /** What an engine step writes to the certificate rows. */
  function CertsAfter(s: Sys, certs: map<Id, Cert>, step: Step): map<Id, Cert>
    requires Enabled(s, step)
  {
    match step
    case Take(_, id) => C.OnClaim(certs, s.q.jobs[id].kind, s.q.jobs[id].certificate)
    case Finish(w, result) =>
      var c := s.workers[w];
      if FinishTx(s.q, s.now, c, w, result).Some? && !result.Returned? && !ToFailure(result).waitingUser
      then C.OnFail(certs, c.kind, c.certificate, RetryOf(c, result).None?) else certs
    case Recover(ids) => C.RecoverCerts(certs, s.q.jobs, ids)
    case _ => certs
  }

  ghost function Do(j: Joint, act: Act): Joint
    requires Allowed(j, act)
  {
    match act
    case Work(step) => Joint(Next(j.s, step), CertsAfter(j.s, j.certs, step), j.versions)
    case Create(c, days, b) => Joint(Next(j.s, Insert(b)), j.certs[c := Cert(Pending, None, days, false)], j.versions)
    case Request(c) =>
      var o := QueueIssue(j.s.q, j.certs, j.s.now, c);
      Joint(j.s.(q := o.q), o.certs, j.versions)
    case Save(c, v, notAfter, b) =>
      Joint(Next(j.s, Insert(b)), C.OnSave(j.certs, c, v), j.versions[v := Version(c, notAfter)])
    case Remove(c) => j.(certs := j.certs[c := j.certs[c].(deleted := true)])
  }

  ghost predicate ValidActs(j: Joint, acts: seq<Act>)
    decreases |acts|
  {
    acts == [] || (Allowed(j, acts[0]) && ValidActs(Do(j, acts[0]), acts[1..]))
  }

  ghost function DoAll(j: Joint, acts: seq<Act>): Joint
    requires ValidActs(j, acts)
    decreases |acts|
  {
    if acts == [] then j else DoAll(Do(j, acts[0]), acts[1..])
  }

  lemma ActKeeps(j: Joint, act: Act)
    requires Inv(j.s) && Allowed(j, act)
    ensures Inv(Do(j, act).s)
  {
    match act
    case Work(step) => StepKeeps(j.s, step);
    case Create(_, _, b) => StepKeeps(j.s, Insert(b));
    case Save(_, _, _, b) => StepKeeps(j.s, Insert(b));
    case Request(c) =>
      InvIsSound(j.s);
      IssueGrows(j.s.q, j.certs, j.s.now, c);
      GrowthIsAStep(j.s, QueueIssue(j.s.q, j.certs, j.s.now, c).q);
    case Remove(_) =>
  }

  // ---------- the current version over whole histories ----------

  lemma {:induction false} RecoverCertsKeep(certs: map<Id, Cert>, jobs: map<Id, Job>, ids: seq<Id>, c: Id)
    requires (forall i | i in ids :: i in jobs) && c in certs
    ensures var certs' := C.RecoverCerts(certs, jobs, ids);
            && c in certs' && certs'[c] == certs[c].(status := certs'[c].status)
            && (certs'[c].status == Issued ==> certs[c].status == Issued || certs[c].current.Some?)
    decreases |ids|
  {
    if ids != [] {
      var i := jobs[ids[0]];
      RecoverCertsKeep(C.OnRecover(certs, i.kind, i.certificate, i.attempt >= i.maxAttempts), jobs, ids[1..], c);
    }
  }

  lemma {:induction false} RecoverCertsKeys(certs: map<Id, Cert>, jobs: map<Id, Job>, ids: seq<Id>)
    requires forall i | i in ids :: i in jobs
    ensures C.RecoverCerts(certs, jobs, ids).Keys == certs.Keys
    decreases |ids|
  {
    if ids != [] {
      var i := jobs[ids[0]];
      RecoverCertsKeys(C.OnRecover(certs, i.kind, i.certificate, i.attempt >= i.maxAttempts), jobs, ids[1..]);
    }
  }

  /** An engine step changes the status of a certificate at most. */
  lemma WorkKeepsRow(s: Sys, certs: map<Id, Cert>, step: Step, c: Id)
    requires Enabled(s, step) && c in certs
    ensures var certs' := CertsAfter(s, certs, step);
            && c in certs' && certs'[c] == certs[c].(status := certs'[c].status)
            && (certs'[c].status == Issued ==> certs[c].status == Issued || certs[c].current.Some?)
  {
    if step.Recover? {
      RecoverCertsKeep(certs, s.q.jobs, step.ids, c);
    }
  }

  lemma WorkKeepsKeys(s: Sys, certs: map<Id, Cert>, step: Step)
    requires Enabled(s, step)
    ensures CertsAfter(s, certs, step).Keys == certs.Keys
  {
    if step.Recover? {
      RecoverCertsKeys(certs, s.q.jobs, step.ids);
    }
  }

  predicate TouchesRow(act: Act, c: Id) {
    match act
    case Create(d, _, _) => d == c
    case Save(d, _, _, _) => d == c
    case Remove(d) => d == c
    case _ => false
  }

  lemma ActKeepsRow(j: Joint, act: Act, c: Id)
    requires Allowed(j, act) && c in j.certs && !TouchesRow(act, c)
    ensures c in Do(j, act).certs
    ensures Do(j, act).certs[c] == j.certs[c].(status := Do(j, act).certs[c].status)
  {
    if act.Work? {
      WorkKeepsRow(j.s, j.certs, act.step, c);
    }
  }

  lemma {:induction false} ActsKeepRow(j: Joint, acts: seq<Act>, c: Id)
    requires Inv(j.s) && ValidActs(j, acts) && c in j.certs && forall act | act in acts :: !TouchesRow(act, c)
    ensures Inv(DoAll(j, acts).s) && c in DoAll(j, acts).certs
    ensures DoAll(j, acts).certs[c] == j.certs[c].(status := DoAll(j, acts).certs[c].status)
    decreases |acts|
  {
    if acts != [] {
      assert acts[0] in acts && forall act | act in acts[1..] :: act in acts;
      ActKeepsRow(j, acts[0], c);
      ActKeeps(j, acts[0]);
      ActsKeepRow(Do(j, acts[0]), acts[1..], c);
    }
  }

  ghost predicate PointersOk(j: Joint) {
    forall c | c in j.certs :: C.PointerOk(c, j.certs[c], j.versions)
  }

  lemma ActKeepsPointers(j: Joint, act: Act)
    requires PointersOk(j) && Allowed(j, act)
    ensures PointersOk(Do(j, act))
  {
    if act.Work? {
      WorkKeepsKeys(j.s, j.certs, act.step);
      forall c | c in j.certs {
        WorkKeepsRow(j.s, j.certs, act.step, c);
      }
    }
  }

  /** In every joint history issued certificates have a current version, and it is their own. */
  lemma {:induction false} PointersStayOk(j: Joint, acts: seq<Act>)
    requires PointersOk(j) && ValidActs(j, acts)
    ensures PointersOk(DoAll(j, acts))
    decreases |acts|
  {
    if acts != [] {
      ActKeepsPointers(j, acts[0]);
      PointersStayOk(Do(j, acts[0]), acts[1..]);
    }
  }

  // ---------- renewals that are lost ----------

  predicate IsIssue(jobs: map<Id, Job>, i: Id, c: Id) {
    i in jobs && jobs[i].kind == Issue && jobs[i].certificate == Some(c)
  }

  predicate IsRenewal(jobs: map<Id, Job>, i: Id, c: Id) {
    i in jobs && jobs[i].kind == Renew && jobs[i].certificate == Some(c)
  }

  /** In this step renewal `i` fails for good, or its lease is recovered; no first issuance of the
      certificate is recovered along with it. */
  ghost predicate LosesRenewal(s: Sys, step: Step, i: Id, c: Id) {
    && IsRenewal(s.q.jobs, i, c)
    && match step
       case Finish(w, result) =>
         w in s.workers && s.workers[w].job == i && HoldsLease(s.q.jobs, i, w) && GivesUp(s.workers[w], result)
       case Recover(ids) => i in ids && forall k | k in ids :: !IsIssue(s.q.jobs, k, c)
       case _ => false
  }

  lemma {:induction false} RecoveredRenewal(certs: map<Id, Cert>, jobs: map<Id, Job>, ids: seq<Id>, i: Id, c: Id)
    requires (forall k | k in ids :: k in jobs && !IsIssue(jobs, k, c)) && IsRenewal(jobs, i, c)
    requires c in certs && !certs[c].deleted && certs[c].current.Some?
    ensures c in C.RecoverCerts(certs, jobs, ids)
    ensures i in ids || certs[c].status == Issued ==> C.RecoverCerts(certs, jobs, ids)[c] == certs[c].(status := Issued)
    decreases |ids|
  {
    if ids != [] {
      var k := jobs[ids[0]];
      assert ids[0] in ids && forall n | n in ids[1..] :: n in ids;
      assert ids == [ids[0]] + ids[1..];
      RecoveredRenewal(C.OnRecover(certs, k.kind, k.certificate, k.attempt >= k.maxAttempts), jobs, ids[1..], i, c);
    }
  }

  lemma LosingStep(j: Joint, step: Step, i: Id, c: Id)
    requires Inv(j.s) && Enabled(j.s, step) && LosesRenewal(j.s, step, i, c)
    requires c in j.certs && !j.certs[c].deleted && j.certs[c].current.Some?
    ensures c in CertsAfter(j.s, j.certs, step)
    ensures CertsAfter(j.s, j.certs, step)[c] == j.certs[c].(status := Issued)
  {
    match step
    case Recover(ids) => RecoveredRenewal(j.certs, j.s.q.jobs, ids, i, c);
    case Finish(w, result) => LosingFinishWrites(j, w, result, c);
    case _ =>
  }

  lemma LosingFinishWrites(j: Joint, w: Id, result: HandlerResult, c: Id)
    requires Inv(j.s) && w in j.s.workers && HoldsLease(j.s.q.jobs, j.s.workers[w].job, w) && GivesUp(j.s.workers[w], result)
    requires IsRenewal(j.s.q.jobs, j.s.workers[w].job, c) && c in j.certs && !j.certs[c].deleted && j.certs[c].current.Some?
    ensures Enabled(j.s, Finish(w, result)) && CertsAfter(j.s, j.certs, Finish(w, result)) == C.SetStatus(j.certs, c, Issued)
  {
    LosingFinish(j.s, w, result);
  }

  lemma LosingFinish(s: Sys, w: Id, result: HandlerResult)
    requires Inv(s) && w in s.workers && HoldsLease(s.q.jobs, s.workers[w].job, w) && GivesUp(s.workers[w], result)
    ensures FinishTx(s.q, s.now, s.workers[w], w, result).Some?
    ensures s.workers[w].kind == s.q.jobs[s.workers[w].job].kind
    ensures s.workers[w].certificate == s.q.jobs[s.workers[w].job].certificate
  {
    assert ClaimOk(s.q.jobs, s.q.execs, s.now, w, s.workers[w]);
  }

  /** Whatever happens in between, short of saving a version or deleting the certificate: when a
      renewal fails for good or loses its lease, the certificate serves the version it served before,
      and its status is issued. */
  lemma LostRenewalKeepsServing(j: Joint, acts: seq<Act>, last: Step, i: Id, c: Id)
    requires Inv(j.s) && c in j.certs && !j.certs[c].deleted && j.certs[c].current.Some?
    requires ValidActs(j, acts) && (forall act | act in acts :: !TouchesRow(act, c))
    requires Enabled(DoAll(j, acts).s, last) && LosesRenewal(DoAll(j, acts).s, last, i, c)
    ensures c in Do(DoAll(j, acts), Act.Work(last)).certs
    ensures Do(DoAll(j, acts), Act.Work(last)).certs[c] == j.certs[c].(status := Issued)
  {
    ActsKeepRow(j, acts, c);
    LosingStep(DoAll(j, acts), last, i, c);
  }

  // ---------- renewing, with nothing at work ----------

  /** Shown as renewing although no issuance of it is queued, running or waiting. */
  ghost predicate Dangles(j: Joint, c: Id) {
    c in j.certs && !j.certs[c].deleted && j.certs[c].status == Renewing && LiveIssuances(j.s.q.jobs, c) == {}
  }

  /** The step ends or withdraws every live issuance of the certificate. */
  ghost predicate EndsLast(s: Sys, step: Step, c: Id)
    requires Enabled(s, step)
  {
    forall i | i in LiveIssuances(s.q.jobs, c) :: ChangeOf(s, step, i) in {Ends, Withdraws}
  }

  /** The step writes no other status: it cancels, it completes a job, or it gives up on renewals of a
      certificate that has no version to fall back on. */
  ghost predicate LeavesRenewing(j: Joint, step: Step, c: Id)
    requires Enabled(j.s, step) && c in j.certs
  {
    match step
    case Cancel(_) => true
    case Finish(w, result) => result.Returned? || (j.s.workers[w].kind == Renew && j.certs[c].current.None?)
    case Recover(ids) => j.certs[c].current.None? && forall k | k in ids :: !IsIssue(j.s.q.jobs, k, c)
    case _ => false
  }

  lemma LiveRow(jobs: map<Id, Job>, jobs': map<Id, Job>, i: Id, now: Time, change: Change, c: Id)
    requires i in LiveIssuances(jobs, c) && i in jobs' && SameIdentity(jobs[i], jobs'[i]) && Changes(jobs[i], jobs'[i], now, change)
    ensures i in LiveIssuances(jobs', c) <==> change !in {Ends, Withdraws}
  {
  }

  lemma LiveAt(s: Sys, step: Step, c: Id, i: Id)
    requires Enabled(s, step) && i in LiveIssuances(s.q.jobs, c) && Inv(s)
    ensures i in LiveIssuances(Next(s, step).q.jobs, c) <==> ChangeOf(s, step, i) !in {Ends, Withdraws}
  {
    StepChanges(s, step, i);
    LiveRow(s.q.jobs, Next(s, step).q.jobs, i, s.now, ChangeOf(s, step, i), c);
  }

  lemma NewlyLive(s: Sys, step: Step, c: Id, i: Id)
    requires Inv(s) && Enabled(s, step) && !step.Insert?
    requires i in LiveIssuances(Next(s, step).q.jobs, c)
    ensures i in LiveIssuances(s.q.jobs, c)
  {
    WorkKeepsJobs(s, step, i);
    StepChanges(s, step, i);
  }

  lemma LiveEndsIff(s: Sys, step: Step, c: Id)
    requires Inv(s) && Enabled(s, step) && LiveIssuances(s.q.jobs, c) != {}
    ensures LiveIssuances(Next(s, step).q.jobs, c) == {} <==> EndsLast(s, step, c)
  {
    forall i | i in LiveIssuances(s.q.jobs, c) {
      LiveAt(s, step, c, i);
    }
    if EndsLast(s, step, c) {
      var k :| k in LiveIssuances(s.q.jobs, c);
      assert ChangeOf(s, step, k) in {Ends, Withdraws};
      forall i | i in LiveIssuances(Next(s, step).q.jobs, c)
        ensures false
      {
        NewlyLive(s, step, c, i);
      }
    }
  }

  lemma {:induction false} RecoveredStatus(certs: map<Id, Cert>, jobs: map<Id, Job>, ids: seq<Id>, c: Id)
    requires (forall k | k in ids :: k in jobs) && c in certs && !certs[c].deleted
    ensures c in C.RecoverCerts(certs, jobs, ids)
    ensures C.RecoverCerts(certs, jobs, ids)[c].status == Renewing
            <==> && certs[c].status == Renewing
                 && (forall k | k in ids :: !IsIssue(jobs, k, c))
                 && (certs[c].current.Some? ==> forall k | k in ids :: !IsRenewal(jobs, k, c))
    decreases |ids|
  {
    if ids != [] {
      var k := jobs[ids[0]];
      assert forall n | n in ids :: n == ids[0] || n in ids[1..];
      assert ids[0] in ids && forall n | n in ids[1..] :: n in ids;
      assert IsIssue(jobs, ids[0], c) <==> k.kind == Issue && k.certificate == Some(c);
      assert IsRenewal(jobs, ids[0], c) <==> k.kind == Renew && k.certificate == Some(c);
      RecoveredStatus(C.OnRecover(certs, k.kind, k.certificate, k.attempt >= k.maxAttempts), jobs, ids[1..], c);
    }
  }

  lemma CancelDangles(j: Joint, task: Id, c: Id)
    requires Allowed(j, Act.Work(Cancel(task))) && Enabled(j.s, Cancel(task))
    requires c in j.certs && !j.certs[c].deleted && j.certs[c].status == Renewing
    requires LiveIssuances(j.s.q.jobs, c) != {} && Inv(j.s)
    ensures Dangles(Do(j, Act.Work(Cancel(task))), c) <==> EndsLast(j.s, Cancel(task), c)
  {
    LiveEndsIff(j.s, Cancel(task), c);
  }

  lemma RecoverDangles(j: Joint, ids: seq<Id>, c: Id)
    requires Inv(j.s) && Enabled(j.s, Recover(ids)) && c in j.certs && !j.certs[c].deleted && j.certs[c].status == Renewing
    requires LiveIssuances(j.s.q.jobs, c) != {}
    ensures Dangles(Do(j, Act.Work(Recover(ids))), c) <==> EndsLast(j.s, Recover(ids), c) && LeavesRenewing(j, Recover(ids), c)
  {
    WorkKeepsRow(j.s, j.certs, Recover(ids), c);
    LiveEndsIff(j.s, Recover(ids), c);
    if EndsLast(j.s, Recover(ids), c) {
      RecoverWrites(j, ids, c);
    }
  }

  lemma RecoverWrites(j: Joint, ids: seq<Id>, c: Id)
    requires Enabled(j.s, Recover(ids)) && c in j.certs && !j.certs[c].deleted && j.certs[c].status == Renewing
    requires LiveIssuances(j.s.q.jobs, c) != {} && EndsLast(j.s, Recover(ids), c)
    ensures c in CertsAfter(j.s, j.certs, Recover(ids))
    ensures CertsAfter(j.s, j.certs, Recover(ids))[c].status == Renewing <==> LeavesRenewing(j, Recover(ids), c)
  {
    RecoveredStatus(j.certs, j.s.q.jobs, ids, c);
    var i := EndedIsListed(j.s, ids, c);
  }

  lemma EndedIsListed(s: Sys, ids: seq<Id>, c: Id) returns (i: Id)
    requires Enabled(s, Recover(ids)) && LiveIssuances(s.q.jobs, c) != {} && EndsLast(s, Recover(ids), c)
    ensures i in ids && (IsIssue(s.q.jobs, i, c) || IsRenewal(s.q.jobs, i, c))
  {
    i :| i in LiveIssuances(s.q.jobs, c);
    assert ChangeOf(s, Recover(ids), i) in {Ends, Withdraws};
  }

  /** The last live issuance ends in a finish: it is the finished job, given up or completed. */
  lemma LastFinish(s: Sys, w: Id, result: HandlerResult, c: Id)
    requires Inv(s) && w in s.workers && LiveIssuances(s.q.jobs, c) != {} && EndsLast(s, Finish(w, result), c)
    ensures var claim := s.workers[w];
            && FinishTx(s.q, s.now, claim, w, result).Some?
            && claim.certificate == Some(c) && C.Issuance(claim.kind)
            && (result.Returned? || GivesUp(claim, result))
  {
    var i :| i in LiveIssuances(s.q.jobs, c);
    assert ChangeOf(s, Finish(w, result), i) in {Ends, Withdraws};
    assert ClaimOk(s.q.jobs, s.q.execs, s.now, w, s.workers[w]);
  }

  lemma FinishDangles(j: Joint, w: Id, result: HandlerResult, c: Id)
    requires w in j.s.workers && Allowed(j, Act.Work(Finish(w, result))) && Enabled(j.s, Finish(w, result))
    requires c in j.certs && !j.certs[c].deleted && j.certs[c].status == Renewing
    requires LiveIssuances(j.s.q.jobs, c) != {} && Inv(j.s)
    ensures Dangles(Do(j, Act.Work(Finish(w, result))), c)
            <==> EndsLast(j.s, Finish(w, result), c) && LeavesRenewing(j, Finish(w, result), c)
  {
    LiveEndsIff(j.s, Finish(w, result), c);
    if EndsLast(j.s, Finish(w, result), c) {
      LastFinish(j.s, w, result, c);
    }
  }

  lemma OtherWorkDoesNotEnd(s: Sys, step: Step, c: Id)
    requires Enabled(s, step) && !step.Cancel? && !step.Finish? && !step.Recover? && LiveIssuances(s.q.jobs, c) != {}
    ensures !EndsLast(s, step, c)
  {
    var i :| i in LiveIssuances(s.q.jobs, c);
    assert ChangeOf(s, step, i) !in {Ends, Withdraws};
  }

  lemma InsertedStayLive(q: Queue, b: Batch, c: Id)
    requires forall i | i in b.jobs :: i !in q.jobs
    ensures LiveIssuances(q.jobs, c) <= LiveIssuances(Enqueue(q, b).jobs, c)
  {
  }

  /** The condition under which an act leaves a certificate dangling. */
  ghost predicate Unbacks(j: Joint, act: Act, c: Id)
    requires Allowed(j, act) && c in j.certs
  {
    act.Work? && EndsLast(j.s, act.step, c) && LeavesRenewing(j, act.step, c)
  }

  lemma OtherActs(j: Joint, act: Act, c: Id)
    requires Allowed(j, act) && Inv(j.s) && !act.Work? && c in j.certs && !j.certs[c].deleted && j.certs[c].status == Renewing
    requires LiveIssuances(j.s.q.jobs, c) != {}
    ensures !Dangles(Do(j, act), c)
  {
    OtherActsEndNothing(j, act, c);
  }

  lemma OtherActsEndNothing(j: Joint, act: Act, c: Id)
    requires Allowed(j, act) && Inv(j.s) && !act.Work?
    ensures LiveIssuances(j.s.q.jobs, c) <= LiveIssuances(Do(j, act).s.q.jobs, c)
  {
    match act
    case Create(_, _, b) => InsertedStayLive(j.s.q, b, c);
    case Save(_, _, _, b) => InsertedStayLive(j.s.q, b, c);
    case Request(d) =>
      InvIsSound(j.s);
      RequestedStayLive(j.s.q, j.certs, j.s.now, d, c);
    case Remove(_) =>
  }

  lemma RequestedStayLive(q: Queue, certs: map<Id, Cert>, now: Time, d: Id, c: Id)
    requires (forall i | i in q.jobs :: i < q.nextId) && QueueIssue(q, certs, now, d).IssueQueued?
    ensures LiveIssuances(q.jobs, c) <= LiveIssuances(QueueIssue(q, certs, now, d).q.jobs, c)
  {
  }

  /** A certificate that is renewing with an issuance at work is left with none if and only if one step
      ends or withdraws all of them and writes no other status: a cancellation, the completion of a job,
      or giving up on renewals of a certificate that never had a version. */
  lemma RenewingDanglesIff(j: Joint, act: Act, c: Id)
    requires Inv(j.s) && Allowed(j, act) && c in j.certs && !j.certs[c].deleted && j.certs[c].status == Renewing
    requires LiveIssuances(j.s.q.jobs, c) != {}
    ensures Dangles(Do(j, act), c) <==> Unbacks(j, act, c)
  {
    if act.Work? {
      WorkDangles(j, act.step, c);
    } else {
      OtherActs(j, act, c);
    }
  }

  lemma WorkDangles(j: Joint, step: Step, c: Id)
    requires Inv(j.s) && Enabled(j.s, step) && c in j.certs && !j.certs[c].deleted && j.certs[c].status == Renewing
    requires LiveIssuances(j.s.q.jobs, c) != {}
    ensures Dangles(Do(j, Act.Work(step)), c) <==> EndsLast(j.s, step, c) && LeavesRenewing(j, step, c)
  {
    match step
    case Cancel(task) => CancelDangles(j, task, c);
    case Recover(ids) => RecoverDangles(j, ids, c);
    case Finish(w, result) => FinishDangles(j, w, result, c);
    case _ =>
      OtherWorkDoesNotEnd(j.s, step, c);
      StillLive(j.s, step, c);
  }

  lemma StillLive(s: Sys, step: Step, c: Id)
    requires Inv(s) && Enabled(s, step) && LiveIssuances(s.q.jobs, c) != {} && !EndsLast(s, step, c)
    ensures LiveIssuances(Next(s, step).q.jobs, c) != {}
  {
    var i :| i in LiveIssuances(s.q.jobs, c) && ChangeOf(s, step, i) !in {Ends, Withdraws};
    LiveAt(s, step, c, i);
  }

  /** No act makes a certificate renewing without an issuance at work. */
  lemma DanglingBegins(j: Joint, act: Act, c: Id)
    requires Inv(j.s) && Allowed(j, act) && !Dangles(j, c) && Dangles(Do(j, act), c)
    ensures c in j.certs && !j.certs[c].deleted && j.certs[c].status == Renewing
    ensures LiveIssuances(j.s.q.jobs, c) != {} && Unbacks(j, act, c)
  {
    BecomesRenewing(j, act, c);
    RenewingDanglesIff(j, act, c);
  }

  lemma BecomesRenewing(j: Joint, act: Act, c: Id)
    requires Inv(j.s) && Allowed(j, act) && Dangles(Do(j, act), c)
    ensures c in j.certs && !j.certs[c].deleted && j.certs[c].status == Renewing
  {
    if act.Work? {
      WorkBecomesRenewing(j, act.step, c);
    }
  }

  lemma WorkBecomesRenewing(j: Joint, step: Step, c: Id)
    requires Enabled(j.s, step) && Dangles(Do(j, Act.Work(step)), c)
    ensures c in j.certs && !j.certs[c].deleted && j.certs[c].status == Renewing
  {
    WorkKeepsKeys(j.s, j.certs, step);
    WorkKeepsRow(j.s, j.certs, step, c);
    if step.Take? {
      var row := j.s.q.jobs[step.id];
      if row.certificate.Some? && C.Issuance(row.kind) {
        TakenIsLive(j.s, step.worker, step.id);
      }
    } else if step.Recover? {
      RecoveredStatus(j.certs, j.s.q.jobs, step.ids, c);
    }
  }

  lemma TakenIsLive(s: Sys, w: Id, id: Id)
    requires Enabled(s, Take(w, id)) && s.q.jobs[id].certificate.Some? && C.Issuance(s.q.jobs[id].kind)
    ensures id in LiveIssuances(Next(s, Take(w, id)).q.jobs, s.q.jobs[id].certificate.value)
  {
  }

  /** So in any history a certificate dangles only after such an act. */
  lemma {:induction false} DanglingHasCause(j: Joint, acts: seq<Act>, c: Id) returns (k: nat)
    requires Inv(j.s) && ValidActs(j, acts) && !Dangles(j, c) && Dangles(DoAll(j, acts), c)
    ensures k < |acts| && ValidActs(j, acts[..k])
    ensures var before := DoAll(j, acts[..k]);
            Allowed(before, acts[k]) && c in before.certs && Unbacks(before, acts[k], c)
    decreases |acts|
  {
    var j' := Do(j, acts[0]);
    if Dangles(j', c) {
      DanglingBegins(j, acts[0], c);
      k := 0;
    } else {
      ActKeeps(j, acts[0]);
      k := DanglingHasCause(j', acts[1..], c);
      assert acts[..k + 1][0] == acts[0] && acts[..k + 1][1..] == acts[1..][..k];
      k := k + 1;
    }
  }
}
