/** Manual DNS-01 validation: which records the user is asked for, and when the job parks. */
module ManualDns {
  import opened Rows
  import opened Names
  import opened Domains
  import opened Policy

  /** How a call to the ACME server can fail. */
  datatype ProviderError = TimedOut | Status(code: nat) | Unreadable

  function Retryable(code: string): Failure {
    Failure(code, true, 0, false)
  }

  function Permanent(code: string): Failure {
    Failure(code, false, 0, false)
  }

  /** classifyACMEError: throttling, server errors and timeouts are worth another attempt. */
  function Classify(e: ProviderError): (f: Failure)
    ensures !f.waitingUser && f.retryAfter == 0 && (f.retryable <==> e.TimedOut? || (e.Status? && (e.code == 429 || e.code >= 500)))
  {
    match e
    case TimedOut => Retryable("acme_timeout")
    case Status(code) => if code == 429 || code >= 500 then Retryable("acme_unavailable") else Permanent("acme_operation_failed")
    case Unreadable => Permanent("acme_operation_failed")
  }

  /** The DNS-01 challenge of an authorization, if it has one, with its TXT value. */
  datatype Offer = NoOffer | BadToken | Offered(value: string)

  datatype Authorization = Authorization(name: string, valid: bool, offer: Offer)

  /** What the server says when an authorization is fetched, and, should it come to that, when its
      challenge is accepted and waited for. */
  datatype Answer = Refused(error: ProviderError) | Answered(auth: Authorization, accepted: Option<ProviderError>, waited: Option<ProviderError>)

  datatype Item = Item(domain: string, fqdn: string, value: string)

  function ItemOf(a: Authorization): Item
    requires a.offer.Offered?
  {
    Item(a.name, CHALLENGE + "." + TrimPrefix(ToLower(a.name), "*."), a.offer.value)
  }

  /** The record of an authorization: its TXT value, at the challenge name of the domain without a star. */
  lemma ItemIs(a: Authorization)
    requires a.offer.Offered?
    ensures ItemOf(a).domain == a.name && ItemOf(a).value == a.offer.value
    ensures ItemOf(a).fqdn == "_acme-challenge." + TrimPrefix(ToLower(a.name), "*.")
  {
  }

  /** The code of a failed call tells a timeout and a busy server from the rest. */
  lemma CodeIs(e: ProviderError)
    ensures Classify(e).code == if e.TimedOut? then "acme_timeout"
                                else if Classify(e).retryable then "acme_unavailable" else "acme_operation_failed"
  {
  }

  /** Why no record can be prepared from this answer, or why it cannot be validated. */
  function Trouble(a: Answer, validating: bool): Option<Failure> {
    if a.Refused? then Some(Classify(a.error))
    else if a.auth.valid then None
    else if a.auth.offer.NoOffer? then Some(Permanent("dns_challenge_unavailable"))
    else if validating then
      if a.accepted.Some? then Some(Classify(a.accepted.value))
      else if a.waited.Some? then Some(Classify(a.waited.value)) else None
    else if a.auth.offer.BadToken? then Some(Permanent("invalid_dns_challenge"))
    else None
  }

  ghost predicate Untroubled(answers: seq<Answer>, validating: bool) {
    forall k | 0 <= k < |answers| :: Trouble(answers[k], validating) == None
  }

  /** The first trouble decides. */
  ghost predicate FirstTrouble(answers: seq<Answer>, validating: bool, f: Failure) {
    exists k :: 0 <= k < |answers| && Trouble(answers[k], validating) == Some(f) && Untroubled(answers[..k], validating)
  }

  /** Records can be prepared when every authorization is valid or offers a challenge with a good token,
      and validation goes through when every one is valid or its challenge is accepted and comes out. */
  lemma UntroubledIff(answers: seq<Answer>)
    ensures Untroubled(answers, false)
            <==> forall k | 0 <= k < |answers| :: answers[k].Answered? && (answers[k].auth.valid || answers[k].auth.offer.Offered?)
    ensures Untroubled(answers, true)
            <==> forall k | 0 <= k < |answers| ::
                   answers[k].Answered? && (answers[k].auth.valid
                                            || (!answers[k].auth.offer.NoOffer? && answers[k].accepted == None && answers[k].waited == None))
  {
  }

  /** What the trouble of one answer is. */
  lemma TroubleIs(a: Answer, validating: bool)
    requires Trouble(a, validating).Some?
    ensures var f := Trouble(a, validating).value;
            && !f.waitingUser && f.retryAfter == 0
            && (a.Answered? && a.auth.offer.NoOffer? ==> f.code == "dns_challenge_unavailable" && !f.retryable)
            && (a.Answered? && a.auth.offer.BadToken? && !validating ==> f.code == "invalid_dns_challenge" && !f.retryable)
            && (a.Refused? ==> f == Classify(a.error))
            && (a.Answered? && !a.auth.offer.NoOffer? && validating ==>
                  f == Classify(if a.accepted.Some? then a.accepted.value else if a.waited.Some? then a.waited.value else Unreadable))
  {
  }

  /** The authorizations that still need a record, in order. */
  function Pending(answers: seq<Answer>): seq<Authorization> {
    if answers == [] then []
    else
      var last := answers[|answers| - 1];
      Pending(answers[..|answers| - 1]) + if last.Refused? || last.auth.valid then [] else [last.auth]
  }

  lemma {:induction false} PendingAre(answers: seq<Answer>)
    ensures forall a :: a in Pending(answers) <==> !a.valid && exists k :: 0 <= k < |answers| && answers[k].Answered? && answers[k].auth == a
  {
    if answers != [] {
      var n := |answers| - 1;
      PendingAre(answers[..n]);
      forall a | a in Pending(answers)
        ensures !a.valid && exists k :: 0 <= k < |answers| && answers[k].Answered? && answers[k].auth == a
      {
        if a in Pending(answers[..n]) {
          var k :| 0 <= k < n && answers[..n][k].Answered? && answers[..n][k].auth == a;
          assert answers[k].auth == a;
        } else {
          assert answers[n].auth == a;
        }
      }
      forall k | 0 <= k < |answers| && answers[k].Answered? && !answers[k].auth.valid
        ensures answers[k].auth in Pending(answers)
      {
        assert k < n ==> answers[..n][k] == answers[k];
      }
    }
  }

  /** One item for each pending authorization, in order. */
  ghost predicate Lists(items: seq<Item>, answers: seq<Answer>) {
    && |items| == |Pending(answers)|
    && forall k | 0 <= k < |items| :: Pending(answers)[k].offer.Offered? && items[k] == ItemOf(Pending(answers)[k])
  }

  /** The loop of prepare_manual_dns_challenges. */
  method PrepareChallenges(answers: seq<Answer>) returns (items: seq<Item>, trouble: Option<Failure>)
    ensures trouble == None <==> Untroubled(answers, false)
    ensures trouble.Some? ==> FirstTrouble(answers, false, trouble.value)
    ensures trouble == None ==> Lists(items, answers)
  {
    items := [];
    for n := 0 to |answers|
      invariant Untroubled(answers[..n], false) && Lists(items, answers[..n])
    {
      assert answers[..n + 1][..n] == answers[..n] && answers[..n + 1][n] == answers[n];
      match answers[n] {
        case Refused(e) =>
          return [], Some(Classify(e));
        case Answered(a, _, _) =>
          if !a.valid {
            if a.offer.NoOffer? {
              return [], Some(Permanent("dns_challenge_unavailable"));
            }
            if a.offer.BadToken? {
              return [], Some(Permanent("invalid_dns_challenge"));
            }
            items := items + [Item(a.name, CHALLENGE + "." + TrimPrefix(ToLower(a.name), "*."), a.offer.value)];
          }
      }
    }
    assert answers[..|answers|] == answers;
    return items, None;
  }

  /** The loop of validate_manual_dns_challenges. */
  method ValidateChallenges(answers: seq<Answer>) returns (trouble: Option<Failure>)
    ensures trouble == None <==> Untroubled(answers, true)
    ensures trouble.Some? ==> FirstTrouble(answers, true, trouble.value)
  {
    for n := 0 to |answers|
      invariant Untroubled(answers[..n], true)
    {
      assert answers[..n + 1][..n] == answers[..n] && answers[..n + 1][n] == answers[n];
      match answers[n] {
        case Refused(e) =>
          return Some(Classify(e));
        case Answered(a, accepted, waited) =>
          if !a.valid {
            if a.offer.NoOffer? {
              return Some(Permanent("dns_challenge_unavailable"));
            }
            if accepted.Some? {
              return Some(Classify(accepted.value));
            }
            if waited.Some? {
              return Some(Classify(waited.value));
            }
          }
      }
    }
    assert answers[..|answers|] == answers;
    return None;
  }

  /** The stored challenge of the certificate, as the handler finds it. */
  datatype Stored = LoadFailed | NoRow | Row(approved: bool)

  datatype Ordered = OrderRefused(error: ProviderError) | OrderIncomplete | OrderPlaced

  /** The start and the end of an execution step are written to the store; either write can fail. */
  datatype Recorded = Recorded(starts: bool, finishes: bool)

  predicate Holds(r: Recorded) {
    r.starts && r.finishes
  }

  /** The steps of the handler up to the finalization of the order. */
  datatype Steps = Steps(validate: Recorded, create: Recorded, prepare: Recorded)

  /** A failed write of a step ends the handler with an error that carries no classification. */
  datatype Outcome = IssueNow | EndWith(failure: Failure) | EndUnclassified

  /** The failure that asks the user for the records. */
  const REQUIRED := Failure("manual_dns_required", false, 0, true)

  /** A new order has to be placed: nothing is approved. */
  predicate Asks(stored: Stored) {
    stored.NoRow? || (stored.Row? && !stored.approved)
  }

  /** Reporter.Step around a body that ended with `trouble`: a failed write wins over it. A body whose
      start could not be written does not run. */
  function StepResult(r: Recorded, trouble: Option<Failure>): Option<Outcome> {
    if !Holds(r) then Some(EndUnclassified)
    else match trouble
         case None => None
         case Some(f) => Some(EndWith(f))
  }

  function OrderTrouble(order: Ordered): Option<Failure> {
    match order
    case OrderRefused(e) => Some(Classify(e))
    case OrderIncomplete => Some(Permanent("invalid_acme_order"))
    case OrderPlaced => None
  }

  /** handleManualDNS01 up to the finalization of the order: it parks exactly when a fresh order needs
      records and they are saved; an approved challenge is never asked for again. `saved` are the items
      stored for the user. */
  method HandleManual(stored: Stored, order: Ordered, answers: seq<Answer>, steps: Steps, saves: bool)
    returns (outcome: Outcome, saved: Option<seq<Item>>)
    ensures outcome.IssueNow? <==>
              if Asks(stored) then
                && Holds(steps.create) && order.OrderPlaced?
                && Holds(steps.prepare) && Untroubled(answers, false) && Pending(answers) == []
              else stored.Row? && Holds(steps.validate) && Untroubled(answers, true)
    ensures outcome == EndWith(REQUIRED)
            <==> && Asks(stored) && Holds(steps.create) && order.OrderPlaced?
                 && Holds(steps.prepare) && Untroubled(answers, false) && Pending(answers) != [] && saves
    ensures outcome.EndWith? && outcome.failure.waitingUser ==> outcome == EndWith(Failure("manual_dns_required", false, 0, true))
    ensures outcome.EndUnclassified? <==>
              if Asks(stored) then !Holds(steps.create) || (order.OrderPlaced? && !Holds(steps.prepare))
              else stored.Row? && !Holds(steps.validate)
    ensures stored.LoadFailed? ==> outcome == EndWith(Failure("manual_challenge_load_failed", true, 0, false))
    ensures Asks(stored) && Holds(steps.create) && !order.OrderPlaced? ==>
              outcome == EndWith(if order.OrderRefused? then Classify(order.error) else Failure("invalid_acme_order", false, 0, false))
    ensures Asks(stored) && Holds(steps.create) && order.OrderPlaced? && Holds(steps.prepare)
            && Untroubled(answers, false) && Pending(answers) != [] && !saves ==>
              outcome == EndWith(Failure("manual_challenge_save_failed", true, 0, false))
    ensures outcome.IssueNow? && Pending(answers) != [] ==> stored.Row? && stored.approved
    ensures saved.Some? <==> outcome == EndWith(REQUIRED)
    ensures saved.Some? ==> Lists(saved.value, answers) && saved.value != []
    ensures stored.Row? && stored.approved && outcome.EndWith? ==> FirstTrouble(answers, true, outcome.failure)
    ensures Asks(stored) && order.OrderPlaced? && outcome.EndWith? && !Untroubled(answers, false) ==>
              FirstTrouble(answers, false, outcome.failure)
  {
    saved := None;
    if stored.Row? && stored.approved {
      var trouble := None;
      if steps.validate.starts {
        trouble := ValidateChallenges(answers);
      }
      var ended := StepResult(steps.validate, trouble);
      return if ended.Some? then ended.value else IssueNow, None;
    }
    if stored.LoadFailed? {
      return EndWith(Retryable("manual_challenge_load_failed")), None;
    }
    var ended := StepResult(steps.create, OrderTrouble(order));
    if ended.Some? {
      return ended.value, None;
    }
    var items: seq<Item>, trouble := [], None;
    if steps.prepare.starts {
      items, trouble := PrepareChallenges(answers);
    }
    ended := StepResult(steps.prepare, trouble);
    if ended.Some? {
      return ended.value, None;
    }
    if |items| == 0 {
      return IssueNow, None;
    }
    if !saves {
      return EndWith(Retryable("manual_challenge_save_failed")), None;
    }
    return EndWith(REQUIRED), Some(items);
  }

  /** The record asked for has the labels the zone check looked at, with or without the star. */
  lemma RecordLabels(a: Authorization, name: string)
    requires a.offer.Offered? && ToLower(a.name) in {name, TrimPrefix(name, "*.")} && !HasPrefix(TrimPrefix(name, "*."), "*.")
    ensures Split(ItemOf(a).fqdn) == ChallengeLabels(name)
  {
    var rest := TrimPrefix(name, "*.");
    assert TrimPrefix(rest, "*.") == rest;
    assert '.' !in CHALLENGE;
    SplitConcat(CHALLENGE, rest);
    NoDotsNoSplit(CHALLENGE);
  }

  /** So a name accepted for some zones is validated by a record inside one of them. */
  lemma RecordLiesInZone(a: Authorization, name: string, zones: seq<string>)
    requires a.offer.Offered? && ToLower(a.name) in {name, TrimPrefix(name, "*.")} && !HasPrefix(TrimPrefix(name, "*."), "*.")
    requires Managed(name, zones)
    ensures exists z :: z in zones && z != "" && (ItemOf(a).fqdn == z || HasSuffix(ItemOf(a).fqdn, "." + z))
  {
    RecordLabels(a, name);
    var z :| z in zones && InZone(name, z);
    SuffixIsLabelSuffix(ItemOf(a).fqdn, z);
  }
}
