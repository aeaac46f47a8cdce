/** The worker's failure policy: classification, retry decision and backoff schedule. */
module Policy {
  import opened Rows

  const MINUTE: Time := 60
  const LEASE_DURATION: Time := 15 * MINUTE
  const SCHEDULE: seq<Time> := [MINUTE, 5 * MINUTE, 15 * MINUTE, 60 * MINUTE, 240 * MINUTE]

  function RetryDelay(attempt: int): (delay: Time)
    ensures MINUTE <= delay <= 240 * MINUTE
  {
    if attempt < 1 then SCHEDULE[0]
    else if attempt >= |SCHEDULE| then SCHEDULE[|SCHEDULE| - 1]
    else SCHEDULE[attempt - 1]
  }

  /** Later attempts never wait less, and each of the first five waits longer than the one before. */
  lemma DelayGrows(a: int, b: int)
    requires a <= b
    ensures RetryDelay(a) <= RetryDelay(b)
    ensures 1 <= a < b <= |SCHEDULE| ==> RetryDelay(a) < RetryDelay(b)
  {
    assert SCHEDULE == [60, 300, 900, 3600, 14400];
  }

  datatype Failure = Failure(code: string, retryable: bool, retryAfter: Time, waitingUser: bool)

  /** How a handler call ended. A missing handler is a Classified permanent failure. */
  datatype HandlerResult = Returned | Classified(failure: Failure) | Unclassified | Panicked

  function ToFailure(result: HandlerResult): Failure
    requires !result.Returned?
  {
    match result
    case Classified(f) => if f.code == "" then f.(code := "execution_failed") else f
    case Unclassified => Failure("execution_failed", true, 0, false)
    case Panicked => Failure("handler_panic", false, 0, false)
  }

  datatype Plan = PlanWait | PlanFail(retry: Option<Time>)

  /** finishFailure: park for the user, retry later, or give up. */
  function PlanFor(f: Failure, attempt: nat, maxAttempts: nat): (p: Plan)
    ensures p.PlanWait? <==> f.waitingUser
    ensures p.PlanFail? ==> (p.retry.Some? <==> f.retryable && attempt < maxAttempts)
    ensures p.PlanFail? && p.retry.Some? ==>
              p.retry.value > 0 && p.retry.value in {f.retryAfter, RetryDelay(attempt)} && (f.retryAfter > 0 ==> p.retry.value == f.retryAfter)
  {
    if f.waitingUser then PlanWait
    else if f.retryable && attempt < maxAttempts then
      PlanFail(Some(if f.retryAfter <= 0 then RetryDelay(attempt) else f.retryAfter))
    else PlanFail(None)
  }
}
