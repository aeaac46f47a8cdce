/** What every act of a joint history does to the status of a certificate. */
module CertStatuses {
  import opened Rows
  import opened Catalog
  import opened Policy
  import opened System
  import opened Engine
  import I = Invariant
  import opened EngineTheorems
  import opened Scheduling
  import opened Joint
  import opened Approval
  import C = Certificates

  predicate IssuanceOf(j: Job, c: Id) {
    (j.kind == Issue || j.kind == Renew) && j.certificate == Some(c)
  }

  /** A certificate that exists and is not deleted. */
  predicate Live(certs: map<Id, Cert>, c: Id) {
    c in certs && !certs[c].deleted
  }

  // ---------- claims ----------

  /** A claim of an issuance shows its certificate as issuing or renewing; no other row changes. */
  lemma ClaimShows(j: Joint, w: Id, id: Id, c: Id)
    requires Enabled(j.s, Take(w, id)) && c in j.certs
    ensures var certs', job := Do(j, Act.Work(Take(w, id))).certs, j.s.q.jobs[id];
            && c in certs'
            && certs'[c] == if !j.certs[c].deleted && IssuanceOf(job, c)
                            then j.certs[c].(status := if job.kind == Renew then Renewing else Issuing) else j.certs[c]
  {
  }

  // ---------- finishes ----------

  /** The handler has failed for good: it panicked, or its failure is permanent and does not wait for the
      user, or the attempts are used up. */
  predicate FailsForGood(c: Claim, result: HandlerResult) {
    match result
    case Returned => false
    case Panicked => true
    case Unclassified => c.attempt >= c.maxAttempts
    case Classified(f) => !f.waitingUser && (!f.retryable || c.attempt >= c.maxAttempts)
  }

  lemma GivesUpIff(c: Claim, result: HandlerResult)
    ensures GivesUp(c, result) <==> FailsForGood(c, result)
  {
  }

  /** The finish gives an issuance of `c` up while it still holds the lease. */
  predicate GivesUpIssuance(s: Sys, w: Id, result: HandlerResult, c: Id)
    requires w in s.workers
  {
    s.workers[w].certificate == Some(c) && FailsForGood(s.workers[w], result) && HoldsLease(s.q.jobs, s.workers[w].job, w)
  }

  lemma CommitsIff(q: Queue, now: Time, c: Claim, w: Id, result: HandlerResult)
    requires RunKnown(q, c.run) && GivesUp(c, result)
    ensures FinishTx(q, now, c, w, result).Some? <==> HoldsLease(q.jobs, c.job, w)
  {
  }

  lemma FinishWrites(s: Sys, certs: map<Id, Cert>, w: Id, result: HandlerResult, c: Id)
    requires w in s.workers && c in certs && RunKnown(s.q, s.workers[w].run)
    ensures var certs', kind := CertsAfter(s, certs, Finish(w, result)), s.workers[w].kind;
            && c in certs'
            && certs'[c] == if certs[c].deleted || !GivesUpIssuance(s, w, result, c) then certs[c]
                            else if kind == Issue then certs[c].(status := IssueFailed)
                            else if kind == Renew && certs[c].current.Some? then certs[c].(status := Issued)
                            else certs[c]
  {
    GivesUpIff(s.workers[w], result);
    if GivesUp(s.workers[w], result) {
      CommitsIff(s.q, s.now, s.workers[w], w, result);
    }
  }

  /** A finish changes a status only when it gives up an issuance whose lease it still holds: a first
      one leaves the certificate failed, a renewal leaves it issued if it has a version. A retry, a wait
      for the user, a success and a lost lease leave it as it is. */
  lemma FinishShows(j: Joint, w: Id, result: HandlerResult, c: Id)
    requires w in j.s.workers && c in j.certs && I.Inv(j.s)
    ensures var certs', kind := Do(j, Act.Work(Finish(w, result))).certs, j.s.workers[w].kind;
            && c in certs'
            && certs'[c] == if j.certs[c].deleted || !GivesUpIssuance(j.s, w, result, c) then j.certs[c]
                            else if kind == Issue then j.certs[c].(status := IssueFailed)
                            else if kind == Renew && j.certs[c].current.Some? then j.certs[c].(status := Issued)
                            else j.certs[c]
  {
    ClaimRunKnown(j.s, w);
    FinishWrites(j.s, j.certs, w, result, c);
  }

  // ---------- recovery ----------

  lemma {:induction false} RecoveryWrites(certs: map<Id, Cert>, jobs: map<Id, Job>, ids: seq<Id>, c: Id, i: Id)
    requires (forall k | k in ids :: k in jobs) && c in certs
    requires forall k | k in ids && IssuanceOf(jobs[k], c) :: k == i
    ensures var certs' := C.RecoverCerts(certs, jobs, ids);
            && c in certs'
            && (i !in ids || certs[c].deleted || !IssuanceOf(jobs[i], c) ==> certs'[c] == certs[c])
            && (i in ids && !certs[c].deleted && IssuanceOf(jobs[i], c) ==> certs'[c] == RecoveredCert(certs[c], jobs[i]))
    decreases |ids|
  {
    if ids != [] {
      var k := jobs[ids[0]];
      assert ids == [ids[0]] + ids[1..];
      RecoveryWrites(C.OnRecover(certs, k.kind, k.certificate, k.attempt >= k.maxAttempts), jobs, ids[1..], c, i);
    }
  }

  /** A first issuance fails with its last attempt and is pending again before that; a renewal falls back
      to the version it has. */
  function RecoveredCert(cert: Cert, j: Job): Cert {
    if j.kind == Issue then cert.(status := if j.attempt >= j.maxAttempts then IssueFailed else Pending)
    else if cert.current.Some? then cert.(status := Issued)
    else cert
  }

  /** Recovering the lease of issuance `i`, and of no other of its certificate: a first issuance that
      has used its attempts leaves a live certificate failed, any other first issuance pending, and a
      renewal issued if there is a version. */
  lemma RecoveryShows(j: Joint, ids: seq<Id>, c: Id, i: Id)
    requires Enabled(j.s, Recover(ids)) && c in j.certs && !j.certs[c].deleted
    requires i in ids && IssuanceOf(j.s.q.jobs[i], c) && forall k | k in ids && IssuanceOf(j.s.q.jobs[k], c) :: k == i
    ensures var certs', job := Do(j, Act.Work(Recover(ids))).certs, j.s.q.jobs[i];
            && c in certs'
            && certs'[c] == j.certs[c].(status := certs'[c].status)
            && (job.kind == Issue ==> certs'[c].status == if job.attempt >= job.maxAttempts then IssueFailed else Pending)
            && (job.kind == Renew ==> certs'[c].status == if j.certs[c].current.Some? then Issued else j.certs[c].status)
  {
    RecoveryWrites(j.certs, j.s.q.jobs, ids, c, i);
  }

  /** Certificates without a recovered issuance, and deleted ones, keep their rows. */
  lemma RecoveryLeaves(j: Joint, ids: seq<Id>, c: Id)
    requires Enabled(j.s, Recover(ids)) && c in j.certs
    requires j.certs[c].deleted || forall k | k in ids :: !IssuanceOf(j.s.q.jobs[k], c)
    ensures c in Do(j, Act.Work(Recover(ids))).certs && Do(j, Act.Work(Recover(ids))).certs[c] == j.certs[c]
  {
    if j.certs[c].deleted {
      DeletedStays(j.certs, j.s.q.jobs, ids, c);
    } else {
      RecoveryWrites(j.certs, j.s.q.jobs, ids, c, 0);
    }
  }

  lemma {:induction false} DeletedStays(certs: map<Id, Cert>, jobs: map<Id, Job>, ids: seq<Id>, c: Id)
    requires (forall k | k in ids :: k in jobs) && c in certs && certs[c].deleted
    ensures c in C.RecoverCerts(certs, jobs, ids) && C.RecoverCerts(certs, jobs, ids)[c] == certs[c]
    decreases |ids|
  {
    if ids != [] {
      var k := jobs[ids[0]];
      DeletedStays(C.OnRecover(certs, k.kind, k.certificate, k.attempt >= k.maxAttempts), jobs, ids[1..], c);
    }
  }

  // ---------- requests, versions, and the rest ----------

  /** A new certificate is pending and has no version. */
  lemma CreateShows(j: Joint, d: Id, renewBefore: Time, b: Batch)
    requires Allowed(j, Act.Create(d, renewBefore, b))
    ensures d !in j.certs && Do(j, Act.Create(d, renewBefore, b)).certs == j.certs[d := Cert(Pending, None, renewBefore, false)]
  {
  }

  /** A requested certificate is pending, and an issuance of it is queued. */
  lemma RequestShows(j: Joint, d: Id, c: Id)
    requires I.Inv(j.s) && Allowed(j, Request(d)) && c in j.certs
    ensures Live(j.certs, d)
    ensures var j' := Do(j, Request(d));
            && c in j'.certs && j'.certs[c] == (if c == d then j.certs[c].(status := Pending) else j.certs[c])
            && exists i :: i in j'.s.q.jobs && i !in j.s.q.jobs && j'.s.q.jobs[i].kind == Issue
                           && j'.s.q.jobs[i].certificate == Some(d) && j'.s.q.jobs[i].scope == CertificateScope(d)
                           && NewRow(j'.s.q.jobs[i], j.s.now)
                           && j'.s.q.jobs[i].task == None && j'.s.q.jobs[i].run == None && j'.s.q.jobs[i].target == None
                           && j'.s.q.jobs == j.s.q.jobs[i := j'.s.q.jobs[i]]
  {
    var id := j.s.q.nextId;
    assert id in Do(j, Request(d)).s.q.jobs && id !in j.s.q.jobs;
  }

  /** A saved version makes its certificate issued and current, unless the certificate is deleted. */
  lemma SaveShows(j: Joint, d: Id, version: Id, notAfter: Time, b: Batch, c: Id)
    requires Allowed(j, Save(d, version, notAfter, b)) && c in j.certs
    ensures var j' := Do(j, Save(d, version, notAfter, b));
            && j'.versions == j.versions[version := Version(d, notAfter)]
            && c in j'.certs
            && j'.certs[c] == if c == d && !j.certs[c].deleted then j.certs[c].(status := Issued, current := Some(version))
                              else j.certs[c]
  {
  }

  /** No other engine step touches a certificate. */
  lemma OtherStepsShowNothing(j: Joint, step: Step)
    requires Enabled(j.s, step) && !step.Take? && !step.Finish? && !step.Recover?
    ensures Do(j, Act.Work(step)).certs == j.certs
  {
  }
}
