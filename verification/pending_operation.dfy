/**
 The pending operation: the resolver/rejector pair of the promise that
 `show()` or `restart()` returned, held until a payment-authorized or a
 cancel event settles it. A promise is named by the id it was issued with.
 */
module PendingOperation {
  import opened JsRuntime
  import opened PaymentTypes
  import opened ResponseConverter

  type PromiseId = nat

  /** The error a cancelled payment request is rejected with. */
  const AbortError: Thrown := NamedError("AbortError", "Payment request cancelled")

  /** The adapter's two fields, each holding the settling function of some promise. */
  datatype Slot = Slot(resolver: Option<PromiseId>, rejector: Option<PromiseId>)

  const Empty: Slot := Slot(None, None)

  /** Both fields are empty, or both settle the same promise. */
  predicate Coherent(s: Slot)
  {
    (s.resolver.None? && s.rejector.None?) || (s.resolver.Some? && s.rejector == s.resolver)
  }

  /** How a promise was settled. */
  datatype Settlement =
    | Resolved(promise: PromiseId, response: PaymentResponse)
    | Rejected(promise: PromiseId, error: Thrown)

  /** The result of a vendor event on the slot: the new slot, the settlement
      made (if any) and what the handler threw (if anything). */
  datatype Transition = Transition(slot: Slot, settled: Option<Settlement>, thrown: Option<Thrown>)

  /** `show()` and `restart()`: both settling functions now belong to `p`. */
  function Arm(p: PromiseId): (s: Slot)
    ensures Coherent(s) && s.resolver == Some(p)
  {
    Slot(Some(p), Some(p))
  }

  /** The payment-authorized event: with a resolver present, the payment is
      converted and the pending promise resolved, then both fields are cleared.
      A conversion that throws leaves the slot as it was. With no resolver
      nothing happens. */
  function OnPaymentAuthorized(s: Slot, payment: Payment): (t: Transition)
    ensures s.resolver.None? ==> t == Transition(s, None, None)
    ensures s.resolver.Some? && ConvertPaymentResponse(payment).Ok? ==>
      t == Transition(Empty, Some(Resolved(s.resolver.value, ConvertPaymentResponse(payment).value)), None)
    ensures s.resolver.Some? && ConvertPaymentResponse(payment).Err? ==>
      t == Transition(s, None, Some(TypeError))
  {
    match s.resolver
    case None => Transition(s, None, None)
    case Some(p) =>
      match ConvertPaymentResponse(payment)
      case Ok(response) => Transition(Empty, Some(Resolved(p, response)), None)
      case Err(e) => Transition(s, None, Some(e))
  }

  /** The cancel event: with a rejector present, the pending promise is
      rejected with an `AbortError` and both fields are cleared; otherwise
      nothing happens. */
  function OnPaymentCanceled(s: Slot): (t: Transition)
    ensures s.rejector.None? ==> t == Transition(s, None, None)
    ensures s.rejector.Some? ==> t == Transition(Empty, Some(Rejected(s.rejector.value, AbortError)), None)
  {
    match s.rejector
    case None => Transition(s, None, None)
    case Some(p) => Transition(Empty, Some(Rejected(p, AbortError)), None)
  }

  /** No event leaves only one of the two settling functions set, and a
      settlement always names the promise the slot held. */
  lemma EventsKeepSlotCoherent(s: Slot, payment: Payment)
    requires Coherent(s)
    ensures Coherent(OnPaymentAuthorized(s, payment).slot)
    ensures Coherent(OnPaymentCanceled(s).slot)
    ensures OnPaymentAuthorized(s, payment).settled.Some? ==> OnPaymentAuthorized(s, payment).settled.value.promise == s.resolver.value
    ensures OnPaymentCanceled(s).settled.Some? ==> OnPaymentCanceled(s).settled.value.promise == s.resolver.value
  {
  }

  /** A second cancel, and a cancel after a successful authorization, settle
      nothing and change nothing. */
  lemma CancelAfterSettlementIsNoOp(s: Slot, payment: Payment)
    requires Coherent(s)
    ensures var once := OnPaymentCanceled(s).slot;
      OnPaymentCanceled(once) == Transition(once, None, None)
    ensures var after := OnPaymentAuthorized(s, payment);
      after.settled.Some? ==> OnPaymentCanceled(after.slot) == Transition(after.slot, None, None)
  {
  }
}
