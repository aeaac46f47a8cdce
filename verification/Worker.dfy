/** The sequential worker loop over the shared store. Each half of a pass is proved to be the steps
    of the whole-system machine it stands for, with what they write to the certificate rows. */
module Workers {
  import opened Rows
  import opened Policy
  import opened Engine
  import opened Certificates
  import opened Stores
  import Joint
  import System

  class Worker {
    const id: Id
    const store: Store
    var claimed: Option<Claim>

    constructor (id: Id, store: Store)
      ensures this.id == id && this.store == store && claimed == None
    {
      this.id, this.store, claimed := id, store, None;
    }

    /** The object stands for this worker of `s`, and the store for its tables. */
    ghost predicate Simulates(s: System.Sys)
      reads this, store
    {
      && store.Q() == s.q
      && match claimed
         case None => id !in s.workers
         case Some(c) => id in s.workers && s.workers[id] == c
    }

    /** The first half of tick: recover what other workers lost, then claim one job if one is due.
        It is a recovery of every expired row and, unless nothing is claimable, a claim. */
    method Poll(now: Time, ghost s: System.Sys) returns (ghost ids: seq<Id>, ghost s': System.Sys)
      requires claimed == None && Simulates(s) && s.now == now
      modifies `claimed, store`jobs, store`execs, store`runs, store`nextId, store`certs
      ensures ListsAllExpired(s.q.jobs, now, ids) && System.Enabled(s, System.Recover(ids))
      ensures Simulates(s')
      ensures var s1 := System.Next(s, System.Recover(ids));
              var certs1 := Joint.CertsAfter(s, old(store.certs), System.Recover(ids));
              match claimed
              case None =>
                && s' == s1 && store.certs == certs1
                && forall i | i in s1.q.jobs :: !Claimable(s1.q.jobs[i], now)
              case Some(c) =>
                var take := System.Take(id, c.job);
                && System.Enabled(s1, take) && s' == System.Next(s1, take)
                && store.certs == Joint.CertsAfter(s1, certs1, take)
    {
      var count;
      count, ids := store.RecoverExpiredJobs(now, RetryDelay(1));
      s' := System.Next(s, System.Recover(ids));
      claimed := store.ClaimJob(now, id, LEASE_DURATION);
      if claimed.Some? {
        s' := System.Next(s', System.Take(id, claimed.value.job));
      }
    }

    /** The second half: the handler has ended one way or another, and the claim is over, whatever
        other workers have done to the tables since. */
    method Finish(now: Time, result: HandlerResult, ghost s: System.Sys)
      requires claimed.Some? && Simulates(s) && s.now == now
      modifies `claimed, store`jobs, store`execs, store`runs, store`certs
      ensures claimed == None && Simulates(System.Next(s, System.Finish(id, result)))
      ensures store.certs == Joint.CertsAfter(s, old(store.certs), System.Finish(id, result))
    {
      var c := claimed.value;
      claimed := None;
      if result.Returned? {
        var _ := store.CompleteJob(now, c, id);
      } else {
        FinishFailure(now, c, ToFailure(result));
      }
    }

    /** The failure policy, then one transaction. */
    method FinishFailure(now: Time, c: Claim, failure: Failure)
      modifies store`jobs, store`execs, store`runs, store`certs
      ensures match FailureTx(old(store.Q()), now, c, id, failure)
              case None => store.Q() == old(store.Q()) && store.certs == old(store.certs)
              case Some(q) =>
                && store.Q() == q
                && store.certs == match PlanFor(failure, c.attempt, c.maxAttempts)
                                  case PlanWait => old(store.certs)
                                  case PlanFail(retry) => OnFail(old(store.certs), c.kind, c.certificate, retry.None?)
    {
      if failure.waitingUser {
        var _ := store.MarkJobWaitingUser(now, c, id, HandlerCode(failure.code));
        return;
      }
      var retry := None;
      if failure.retryable && c.attempt < c.maxAttempts {
        var delay := failure.retryAfter;
        if delay <= 0 {
          delay := RetryDelay(c.attempt);
        }
        retry := Some(delay);
      }
      var _ := store.FailJob(now, c, id, HandlerCode(failure.code), retry);
    }
  }

  function FailureTx(q: Queue, now: Time, c: Claim, worker: Id, failure: Failure): Option<Queue> {
    match PlanFor(failure, c.attempt, c.maxAttempts)
    case PlanWait => MarkWaiting(q, now, c, worker, HandlerCode(failure.code))
    case PlanFail(retry) => Engine.FailJob(q, now, c, worker, HandlerCode(failure.code), retry)
  }
}
