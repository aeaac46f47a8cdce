/** The certificate rows: status changes made by the job transactions, and the safety of the
    current-version pointer. */
module Certificates {
  import opened Rows
  import opened Catalog

  predicate Issuance(kind: Kind) {
    kind == Issue || kind == Renew
  }

  /** UPDATE certificates SET status = ... WHERE id = ... AND deleted_at IS NULL. */
  function SetStatus(certs: map<Id, Cert>, id: Id, status: CertStatus): map<Id, Cert> {
    if id in certs && !certs[id].deleted then certs[id := certs[id].(status := status)] else certs
  }

  function OnClaim(certs: map<Id, Cert>, kind: Kind, certificate: Option<Id>): map<Id, Cert> {
    if certificate.Some? && Issuance(kind)
    then SetStatus(certs, certificate.value, if kind == Renew then Renewing else Issuing)
    else certs
  }

  /** The CASE of FailJob: only a final failure moves the status. */
  function OnFail(certs: map<Id, Cert>, kind: Kind, certificate: Option<Id>, final: bool): map<Id, Cert> {
    if certificate.None? || !Issuance(kind) || !final || certificate.value !in certs then certs
    else if kind == Issue then SetStatus(certs, certificate.value, IssueFailed)
    else if certs[certificate.value].current.Some? then SetStatus(certs, certificate.value, Issued)
    else certs
  }

  /** The two CASEs of RecoverExpiredJobs: the job is out of attempts, or goes back to the queue. */
  function OnRecover(certs: map<Id, Cert>, kind: Kind, certificate: Option<Id>, exhausted: bool): map<Id, Cert> {
    if certificate.None? || !Issuance(kind) || certificate.value !in certs then certs
    else if kind == Issue then SetStatus(certs, certificate.value, if exhausted then IssueFailed else Pending)
    else if certs[certificate.value].current.Some? then SetStatus(certs, certificate.value, Issued)
    else certs
  }

  /** The certificate updates of the recovery loop, row by row. */
  function RecoverCerts(certs: map<Id, Cert>, jobs: map<Id, Job>, ids: seq<Id>): map<Id, Cert>
    requires forall i | i in ids :: i in jobs
    decreases |ids|
  {
    if ids == [] then certs
    else
      var j := jobs[ids[0]];
      RecoverCerts(OnRecover(certs, j.kind, j.certificate, j.attempt >= j.maxAttempts), jobs, ids[1..])
  }

  function OnSave(certs: map<Id, Cert>, id: Id, version: Id): map<Id, Cert> {
    if id in certs && !certs[id].deleted
    then certs[id := certs[id].(status := Issued, current := Some(version))] else certs
  }

  // ---------- the rows as a state machine ----------

  datatype Tables = Tables(certs: map<Id, Cert>, versions: map<Id, Version>)

  datatype Event =
    | Created(id: Id, renewBefore: Time)
    | Requested(id: Id)
    | Claimed(kind: Kind, certificate: Option<Id>)
    | FailedJob(kind: Kind, certificate: Option<Id>, final: bool)
    | Recovered(kind: Kind, certificate: Option<Id>, exhausted: bool)
    | Saved(id: Id, version: Id, notAfter: Time)
    | Deleted(id: Id)

  /** Primary and foreign keys make the other inserts fail and roll back. */
  predicate Accepted(s: Tables, e: Event) {
    match e
    case Created(id, _) => id !in s.certs
    case Requested(id) => id in s.certs && !s.certs[id].deleted
    case Saved(id, version, _) => id in s.certs && version !in s.versions
    case Deleted(id) => id in s.certs
    case _ => true
  }

  function Apply(s: Tables, e: Event): Tables
    requires Accepted(s, e)
  {
    match e
    case Created(id, days) => s.(certs := s.certs[id := Cert(Pending, None, days, false)])
    case Requested(id) => s.(certs := s.certs[id := s.certs[id].(status := Pending)])
    case Claimed(kind, c) => s.(certs := OnClaim(s.certs, kind, c))
    case FailedJob(kind, c, final) => s.(certs := OnFail(s.certs, kind, c, final))
    case Recovered(kind, c, exhausted) => s.(certs := OnRecover(s.certs, kind, c, exhausted))
    case Saved(id, version, notAfter) =>
      Tables(OnSave(s.certs, id, version), s.versions[version := Version(id, notAfter)])
    case Deleted(id) => s.(certs := s.certs[id := s.certs[id].(deleted := true)])
  }

  ghost predicate ValidEvents(s: Tables, events: seq<Event>)
    decreases |events|
  {
    events == [] || (Accepted(s, events[0]) && ValidEvents(Apply(s, events[0]), events[1..]))
  }

  ghost function After(s: Tables, events: seq<Event>): Tables
    requires ValidEvents(s, events)
    decreases |events|
  {
    if events == [] then s else After(Apply(s, events[0]), events[1..])
  }

  /** The pointer refers to a version of this very certificate, and issued means it is set. */
  predicate PointerOk(id: Id, c: Cert, versions: map<Id, Version>) {
    && (c.current.Some? ==> c.current.value in versions && versions[c.current.value].certificate == id)
    && (c.status == Issued ==> c.current.Some?)
  }

  ghost predicate PointersOk(s: Tables) {
    forall id | id in s.certs :: PointerOk(id, s.certs[id], s.versions)
  }

  lemma PointerStep(s: Tables, e: Event)
    requires PointersOk(s) && Accepted(s, e)
    ensures PointersOk(Apply(s, e))
  {
  }

  /** What one event may do to one pointer. */
  lemma PointerMoves(s: Tables, e: Event, id: Id)
    requires Accepted(s, e) && id in s.certs
    ensures var c, c' := s.certs[id], Apply(s, e).certs[id];
            && (c.current.Some? ==> c'.current.Some?)
            && (c'.current != c.current ==> e.Saved? && e.id == id && !c.deleted && c'.current == Some(e.version))
  {
  }

  /** Over every history: pointers are never cleared, never cross certificates, and move only
      when a version of that certificate is saved. */
  lemma {:induction false} PointerSafety(s: Tables, events: seq<Event>, id: Id)
    requires PointersOk(s) && ValidEvents(s, events)
    ensures PointersOk(After(s, events))
    ensures id in s.certs && s.certs[id].current.Some? ==>
              id in After(s, events).certs && After(s, events).certs[id].current.Some?
    ensures id in s.certs && (forall e | e in events :: !(e.Saved? && e.id == id)) ==>
              id in After(s, events).certs && After(s, events).certs[id].current == s.certs[id].current
    decreases |events|
  {
    if events != [] {
      PointerStep(s, events[0]);
      if id in s.certs {
        PointerMoves(s, events[0], id);
      }
      assert events[0] in events && forall e | e in events[1..] :: e in events;
      PointerSafety(Apply(s, events[0]), events[1..], id);
    }
  }
}
