/** The rows of the control plane's job tables, one datatype per entity. */
module Rows {

  /** Primary keys. `Queue.nextId` stands for id.New(), which never repeats. */
  type Id = nat

  /** Database time and durations, in seconds. */
  type Time = int

  datatype Option<+T> = None | Some(value: T)

  datatype Kind = Issue | Renew | Upload | Deploy

  datatype JobStatus = Queued | Running | WaitingUser | Succeeded | Failed | Cancelled

  /** A job in one of these statuses is never touched again. */
  predicate Terminal(status: JobStatus) {
    status in {Succeeded, Failed, Cancelled}
  }

  datatype Lease = Lease(owner: Id, expires: Time)

  /** The two halves of the UNIQUE (idempotency_scope, idempotency_key) pair. Ids are
      fixed-length and contain no colon, so a key built by concatenation is a tuple. */
  datatype Scope = CertificateScope(id: Id) | TargetScope(id: Id) | TaskScope(id: Id) | SchedulerScope(id: Id)
  datatype Key = InitialIssue | Once(nonce: Id) | ForVersion(version: Id) | ForVersionAndTarget(version: Id, target: Id)

  datatype Job = Job(
    kind: Kind, status: JobStatus, scope: Scope, key: Key,
    certificate: Option<Id>, target: Option<Id>, credential: Option<Id>,
    task: Option<Id>, run: Option<Id>,
    nextRunAt: Time, createdAt: Time,
    attempt: nat, maxAttempts: nat,
    lease: Option<Lease>, cancelRequested: bool)

  datatype ExecStatus = ExecRunning | ExecWaiting | ExecSucceeded | ExecFailed

  datatype ErrorCode = LeaseExpired | HandlerCode(code: string)

  datatype Execution = Execution(job: Id, status: ExecStatus, attempt: nat, maxAttempts: nat, error: Option<ErrorCode>)

  datatype RunStatus = RunQueued | RunRunning | RunWaiting | RunSucceeded | RunPartial | RunFailed | RunCancelled

  datatype Run = Run(
    task: Id, certificate: Id, version: Option<Id>, status: RunStatus,
    total: nat, succeeded: nat, failed: nat, finished: Option<Time>)

  datatype ChallengeStatus = ChallengeWaiting | ChallengeApproved

  /** A manual DNS-01 challenge; the table is keyed by its job. */
  datatype Challenge = Challenge(certificate: Id, status: ChallengeStatus, createdAt: Time)

  datatype Queue = Queue(
    jobs: map<Id, Job>, execs: map<Id, Execution>, runs: map<Id, Run>,
    challenges: map<Id, Challenge>, nextId: Id)

  /** What ClaimJob hands to a worker. `deadline` is the lease it was granted. */
  datatype Claim = Claim(
    job: Id, exec: Id, kind: Kind, attempt: nat, maxAttempts: nat,
    certificate: Option<Id>, target: Option<Id>, task: Option<Id>, run: Option<Id>, deadline: Time)
}
