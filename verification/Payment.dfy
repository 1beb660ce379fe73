/** The payment port: what the provider may say, and the HTTP adapter that reads it. */
module Payment {
  /** What the provider has decided about one idempotency key.  Every decision is final. */
  datatype Decision = Undecided | Approved(reference: string) | Declined | Rejected

  /** The provider has not charged this key and never will. */
  predicate Refused(d: Decision) { d == Declined || d == Rejected }

  datatype PaymentResult = PaymentResult(reference: string, status: string)

  /** Adapter errors: only a non-2xx answer is classified. */
  datatype PaymentError = Unclassified | HttpStatus(code: int)

  datatype ChargeReply = Charged(result: PaymentResult) | ChargeFailed(error: PaymentError)

  datatype LookupReply = Found(result: PaymentResult) | NotFound | LookupFailed

  /** Unclassified errors count as ambiguous. */
  predicate OutcomeMayHaveCommitted(e: PaymentError) {
    match e
    case Unclassified => true
    case HttpStatus(code) => code >= 500 || code == 408 || code == 409 || code == 425 || code == 429
  }

  // ---------- the port contract ----------

  /** What a reply to Charge may say when the provider's decision is d. */
  predicate ChargeTruthful(d: Decision, r: ChargeReply) {
    match r
    case Charged(res) =>
      && (res.status == "approved" ==> res.reference != "" && d == Approved(res.reference))
      && (res.status == "declined" ==> Refused(d))
    case ChargeFailed(e) => OutcomeMayHaveCommitted(e) || Refused(d)
  }

  /** What a reply to LookupCharge may say; absence and failure say nothing. */
  predicate LookupTruthful(d: Decision, r: LookupReply) {
    r.Found? ==>
      && (r.result.status == "approved" ==> d == Approved(r.result.reference))
      && (r.result.status == "declined" ==> Refused(d))
  }

  // ---------- the HTTP adapter ----------

  datatype Body = Malformed | Json(reference: string, status: string)

  datatype HttpReply = NoReply | Reply(code: int, body: Body)

  predicate Success(code: int) { 200 <= code < 300 }

  function DecodeChargeResponse(body: Body): ChargeReply {
    match body
    case Malformed => ChargeFailed(Unclassified)
    case Json(reference, status) =>
      if status == "approved" then
        if reference == "" then ChargeFailed(Unclassified) else Charged(PaymentResult(reference, status))
      else if status == "declined" then Charged(PaymentResult(reference, status))
      else ChargeFailed(Unclassified)
  }

  function Charge(reply: HttpReply): ChargeReply {
    match reply
    case NoReply => ChargeFailed(Unclassified)
    case Reply(code, body) =>
      if !Success(code) then ChargeFailed(HttpStatus(code)) else DecodeChargeResponse(body)
  }

  function LookupCharge(reply: HttpReply): LookupReply {
    match reply
    case NoReply => LookupFailed
    case Reply(code, body) =>
      if code == 404 then NotFound
      else if !Success(code) then LookupFailed
      else match DecodeChargeResponse(body)
           case ChargeFailed(_) => LookupFailed
           case Charged(res) => Found(res)
  }

  /** The answers outside 2xx that a provider gives before anything can be charged: informational and
      redirecting ones, and client errors other than request timeout, conflict, too early and too many
      requests.  From 500 on nothing is known. */
  predicate SentBeforeCharging(code: int) {
    || code < 200                                                        // informational
    || 300 <= code < 400                                                 // redirection
    || (400 <= code < 500 && code !in {REQUEST_TIMEOUT, CONFLICT, TOO_EARLY, TOO_MANY_REQUESTS})
  }

  // Sections 15.5.9 and 15.5.10 of RFC 9110, section 5.2 of RFC 8470, section 4 of RFC 6585.
  const REQUEST_TIMEOUT := 408
  const CONFLICT := 409
  const TOO_EARLY := 425
  const TOO_MANY_REQUESTS := 429

  /** A 2xx answer reports the decision that it names. */
  predicate NamedDecisionIsTrue(d: Decision, reply: HttpReply) {
    reply.Reply? && Success(reply.code) && reply.body.Json? ==>
      && (reply.body.status == "approved" ==> d == Approved(reply.body.reference))
      && (reply.body.status == "declined" ==> Refused(d))
  }

  /** The trusted reading of an answer to a charge: some codes mean that it was and will be refused. */
  predicate ChargeWireTruthful(d: Decision, reply: HttpReply) {
    NamedDecisionIsTrue(d, reply) && (reply.Reply? && SentBeforeCharging(reply.code) ==> Refused(d))
  }

  /** The trusted reading of an answer to a lookup: outside 2xx it says nothing about the charge. */
  predicate LookupWireTruthful(d: Decision, reply: HttpReply) { NamedDecisionIsTrue(d, reply) }

  /** The client's table is the complement of the provider's: outside 2xx, an answer is ambiguous if
      and only if it was not sent before charging. */
  lemma AmbiguousIffNotSentBeforeCharging(code: int)
    requires !Success(code)
    ensures OutcomeMayHaveCommitted(HttpStatus(code)) <==> !SentBeforeCharging(code)
  {
  }

  /** The adapter meets the port contract on every truthful answer, hands over only the two known
      statuses and never an approval without a reference. */
  lemma AdapterMeetsContract(d: Decision, reply: HttpReply)
    ensures ChargeWireTruthful(d, reply) ==> ChargeTruthful(d, Charge(reply))
    ensures LookupWireTruthful(d, reply) ==> LookupTruthful(d, LookupCharge(reply))
    ensures Charge(reply).Charged? ==>
              Charge(reply).result.status == "declined" ||
              (Charge(reply).result.status == "approved" && Charge(reply).result.reference != "")
    ensures LookupCharge(reply).Found? ==> LookupCharge(reply) == Found(Charge(reply).result)
  {
    if reply.Reply? {
      if Success(reply.code) {
        assert Charge(reply) == DecodeChargeResponse(reply.body);
      } else {
        AmbiguousIffNotSentBeforeCharging(reply.code);
      }
    }
  }

  predicate Names(reply: HttpReply, reference: string, status: string) {
    reply.Reply? && 200 <= reply.code < 300 && reply.body == Json(reference, status)
  }

  /** An answer reaches the caller exactly as the provider gave it: an approval if and only if it is a
      2xx one with a reference, a decline if and only if it is a 2xx one.  Any other answer to a
      charge is an error that carries the status if there is one outside 2xx; any other answer to a
      lookup is a missing record if it is a 404, and an error if not. */
  lemma AnswersReachTheCaller(reply: HttpReply, reference: string)
    ensures Charge(reply) == Charged(PaymentResult(reference, "approved")) <==> Names(reply, reference, "approved") && reference != ""
    ensures Charge(reply) == Charged(PaymentResult(reference, "declined")) <==> Names(reply, reference, "declined")
    ensures LookupCharge(reply) == Found(PaymentResult(reference, "approved")) <==>
              Names(reply, reference, "approved") && reference != ""
    ensures LookupCharge(reply) == Found(PaymentResult(reference, "declined")) <==> Names(reply, reference, "declined")
    ensures Charge(reply).ChargeFailed? ==>
              Charge(reply).error ==
              if reply.Reply? && !(200 <= reply.code < 300) then HttpStatus(reply.code) else Unclassified
    ensures Charge(reply).Charged? ==> Charge(reply).result.status in {"approved", "declined"}
    ensures !LookupCharge(reply).Found? ==>
              LookupCharge(reply) == if reply.Reply? && reply.code == 404 then NotFound else LookupFailed
    ensures LookupCharge(reply).Found? ==> Charge(reply) == Charged(LookupCharge(reply).result)
  {
    if reply.Reply? && Success(reply.code) {
      assert Charge(reply) == DecodeChargeResponse(reply.body);
    }
  }

  /** The classification is exactly as cautious as the wire allows: a charge error is ambiguous if
      and only if the answer is compatible with the provider having approved the charge. */
  lemma AmbiguousIffApprovalIsPossible(reply: HttpReply)
    requires Charge(reply).ChargeFailed?
    ensures OutcomeMayHaveCommitted(Charge(reply).error) <==> exists reference :: ChargeWireTruthful(Approved(reference), reply)
  {
    var hidden := Approved(if reply.Reply? && reply.body.Json? then reply.body.reference else "");
    if OutcomeMayHaveCommitted(Charge(reply).error) {
      assert ChargeWireTruthful(hidden, reply);
    } else {
      forall reference ensures !ChargeWireTruthful(Approved(reference), reply) {
        assert reply.Reply? && !Success(reply.code) && SentBeforeCharging(reply.code);
      }
    }
  }

  /** A lookup answer is read as a refusal if and only if it is a 2xx one that says so; a missing
      record, any other status and an unreadable answer are not, whatever the provider decided. */
  lemma LookupRefusesOnlyOnDecline(reply: HttpReply)
    ensures (LookupCharge(reply).Found? && LookupCharge(reply).result.status == "declined") <==>
              reply.Reply? && Success(reply.code) && reply.body.Json? && reply.body.status == "declined"
    ensures LookupCharge(reply) == NotFound <==> reply.Reply? && reply.code == 404
    ensures reply.Reply? && !Success(reply.code) ==>
              !LookupCharge(reply).Found? && forall d :: LookupWireTruthful(d, reply) && LookupTruthful(d, LookupCharge(reply))
  {
    AdapterMeetsContract(Undecided, reply);
  }

  /** When the charge is approved, no answer to a charge or to a lookup is read as a refusal. */
  lemma ApprovalIsNeverReadAsRefusal(reference: string, reply: HttpReply)
    ensures ChargeWireTruthful(Approved(reference), reply) ==>
              match Charge(reply)
              case Charged(res) => res == PaymentResult(reference, "approved")
              case ChargeFailed(e) => OutcomeMayHaveCommitted(e)
    ensures LookupWireTruthful(Approved(reference), reply) && LookupCharge(reply).Found? ==>
              LookupCharge(reply).result == PaymentResult(reference, "approved")
  {
    AdapterMeetsContract(Approved(reference), reply);
  }
}
