/**
 The adapter object itself: construction, handler registration, the
 capability check, and one step of reaction to every call a merchant makes
 and every event the vendor session delivers. Effects the adapter has on
 the outside world are listed in order as `Effect` values.
 */
module SessionAdapter {
  import opened JsRuntime
  import opened PaymentTypes
  import opened ProtocolNegotiator
  import opened RequestBuilder
  import opened ResponseConverter
  import opened CompletionCalls
  import opened PendingOperation

  /** Message used when the method data supplies no unknown-error message. */
  const DefaultUnknownErrorMessage: string := "An unknown error occurred, please try again"

  /** What `canMakePayment()` throws without a merchant identifier. */
  const MerchantIdentifierMissing: string := "`merchantIdentifier` is not specified."

  /** The merchant-registrable events: a closed set instead of `on<type>` properties. */
  datatype EventKind = ShippingAddressChange | ShippingOptionChange | PaymentMethodSelected | ValidateMerchant

  /** A merchant callback, named by an opaque id. */
  type HandlerId = nat

  /** The event name `addEventListener` accepts for each kind, if any. */
  function ParseEventKind(eventType: string): (k: Option<EventKind>)
    ensures k == Some(ShippingAddressChange) <==> eventType == "shippingaddresschange"
    ensures k == Some(ShippingOptionChange) <==> eventType == "shippingoptionchange"
    ensures k == Some(PaymentMethodSelected) <==> eventType == "paymentmethodselected"
    ensures k == Some(ValidateMerchant) <==> eventType == "validatemerchant"
  {
    if eventType == "shippingaddresschange" then Some(ShippingAddressChange)
    else if eventType == "shippingoptionchange" then Some(ShippingOptionChange)
    else if eventType == "paymentmethodselected" then Some(PaymentMethodSelected)
    else if eventType == "validatemerchant" then Some(ValidateMerchant)
    else None
  }

  /** What `addEventListener` throws for a type it does not accept. */
  function UnknownEventTypeMessage(eventType: string): string
  {
    "Unknown event type \"" + eventType + "\" for `addEventListener`."
  }

  /** The adapter's state. The version is fixed at construction. */
  datatype Adapter = Adapter(
    version: Version,
    request: VendorRequest,
    validationEndpoint: Option<string>,
    merchantIdentifier: Option<string>,
    unknownErrorMessage: string,
    handlers: map<EventKind, HandlerId>,
    slot: Slot,
    nextPromise: PromiseId,
    shippingAddress: Option<PaymentAddress>,
    shippingOption: string)

  /** The constructor: negotiates the version, builds the request from the
      first Apple Pay method-data entry, and keeps that entry's endpoint,
      merchant identifier and unknown-error message. No handler is
      registered and no payment is pending yet. */
  function Construct(
    supportsVersion: int -> bool,
    methods: seq<PaymentMethodData>,
    details: Option<PaymentDetails>,
    options: Option<PaymentOptions>
  ): (r: Result<Adapter, Thrown>)
    ensures r.Err? <==> forall j :: 0 <= j < |methods| ==> !DeclaresApplePay(methods[j])
    ensures r.Err? ==> r.error == ThrownString(MethodNotSpecified)
    ensures r.Ok? ==>
      && r.value.version == Negotiate(supportsVersion)
      && r.value.slot == Empty && r.value.handlers == map[]
      && r.value.shippingAddress == None && r.value.shippingOption == ""
    ensures forall i :: IsFirstApplePay(methods, i) ==>
      && r.Ok?
      && r.value.request == BuildRequest(Negotiate(supportsVersion), methods, details, options).value
      && r.value.merchantIdentifier == methods[i].data.merchantIdentifier
      && r.value.validationEndpoint == methods[i].data.validationEndpoint
      && r.value.unknownErrorMessage == OrElse(methods[i].data.unknownErrorMessage, DefaultUnknownErrorMessage)
  {
    var version := Negotiate(supportsVersion);
    match BuildRequest(version, methods, details, options)
    case Err(e) => Err(e)
    case Ok(request) =>
      var data := methods[FirstApplePay(methods).value].data;
      Ok(Adapter(
        version := version,
        request := request,
        validationEndpoint := data.validationEndpoint,
        merchantIdentifier := data.merchantIdentifier,
        unknownErrorMessage := OrElse(data.unknownErrorMessage, DefaultUnknownErrorMessage),
        handlers := map[],
        slot := Empty,
        nextPromise := 0,
        shippingAddress := None,
        shippingOption := ""))
  }

  /** `addEventListener(type, callback)`: only the four customizable event
      names are accepted; a falsy callback (`None`) unregisters. */
  function AddEventListener(a: Adapter, eventType: string, callback: Option<HandlerId>): (r: Result<Adapter, Thrown>)
    ensures r.Err? <==> eventType !in {"shippingaddresschange", "shippingoptionchange", "paymentmethodselected", "validatemerchant"}
    ensures r.Err? ==> r.error == ThrownString(UnknownEventTypeMessage(eventType))
    ensures r.Ok? ==> r.value.(handlers := a.handlers) == a
    ensures r.Ok? ==> forall k :: k != ParseEventKind(eventType).value ==>
      (k in r.value.handlers <==> k in a.handlers) && (k in a.handlers ==> r.value.handlers[k] == a.handlers[k])
    ensures r.Ok? ==> var k := ParseEventKind(eventType).value;
      && (callback.Some? ==> k in r.value.handlers && r.value.handlers[k] == callback.value)
      && (callback.None? ==> k !in r.value.handlers)
  {
    match ParseEventKind(eventType)
    case None => Err(ThrownString(UnknownEventTypeMessage(eventType)))
    case Some(k) =>
      Ok(a.(handlers := if callback.Some? then a.handlers[k := callback.value] else a.handlers - {k}))
  }

  /** `canMakePayment()`: asks the vendor with the merchant identifier, or
      throws when none was given at construction. */
  function CanMakePayment(a: Adapter): (r: Result<VendorCall, Thrown>)
    ensures r.Ok? <==> Truthy(a.merchantIdentifier)
    ensures r.Ok? ==> r.value == CanMakePaymentsWithActiveCard(a.merchantIdentifier.value)
    ensures r.Err? ==> r.error == ThrownString(MerchantIdentifierMissing)
  {
    if Truthy(a.merchantIdentifier) then Ok(CanMakePaymentsWithActiveCard(a.merchantIdentifier.value))
    else Err(ThrownString(MerchantIdentifierMissing))
  }

  // ---------------------------------------------------------------------
  // Steps

  /** The argument a merchant handler is called with. */
  datatype HandlerEvent =
    | ValidateMerchantEvent(validationURL: string)
    | PaymentMethodSelectedEvent(paymentMethod: PaymentMethod)
    | UpdateWithEvent    // an object whose only member is `updateWith`

  /** Something the adapter does to the outside world. */
  datatype Effect =
    | Call(call: VendorCall)
    | Invoke(handler: HandlerId, event: HandlerEvent)
    | Settle(settlement: Settlement)
    | IssuePromise(promise: PromiseId)
    | PostMerchantValidation(endpoint: Option<string>, validationURL: string)
    | ShowNotice(message: string)
    | Throw(error: Thrown)

  /** A call by the merchant, a vendor event, or the settling of a promise
      the merchant passed to `updateWith`. */
  datatype Input =
    | Show
    | Restart
    | AbortRequest
    | CallCanMakePayment
    | CallAddEventListener(eventType: string, callback: Option<HandlerId>)
    | CallCompleteMerchantValidation(merchantSession: string)
    | CallCompletePaymentMethodSelection(newTotal: Option<LineItem>, newLineItems: seq<LineItem>)
    | Complete(result: string, appleError: Option<seq<ApplePayError>>)
    | VendorValidateMerchant(validationURL: string)
    | VendorPaymentMethodSelected(paymentMethod: PaymentMethod)
    | VendorShippingContactSelected(contact: PaymentContact)
    | VendorShippingMethodSelected(shippingMethod: ShippingMethod)
    | VendorPaymentAuthorized(payment: Payment)
    | VendorCancel
    | ShippingAddressUpdateFulfilled(details: Option<PaymentDetails>)
    | ShippingAddressUpdateRejected(reason: Option<PaymentDetails>)
    | ShippingOptionUpdateFulfilled(details: Option<PaymentDetails>)
    | ShippingOptionUpdateRejected(reason: Option<PaymentDetails>)

  datatype Step = Step(adapter: Adapter, effects: seq<Effect>)

  /** The effect of an operation that either returns a vendor call or throws. */
  function CallOrThrow(a: Adapter, r: Result<VendorCall, Thrown>): Step
  {
    match r
    case Ok(c) => Step(a, [Call(c)])
    case Err(e) => Step(a, [Throw(e)])
  }

  /** Applies a continuation's outcome: the rebuilt request, its vendor call
      and any notice; a throw changes nothing. */
  function ApplyCompletion(a: Adapter, r: Result<Completion, Thrown>): Step
  {
    match r
    case Err(e) => Step(a, [Throw(e)])
    case Ok(c) =>
      Step(a.(request := c.request), [Call(c.call)] + (if c.notice.Some? then [ShowNotice(c.notice.value)] else []))
  }

  /** Applies a slot transition of a terminal vendor event. */
  function ApplyTransition(a: Adapter, t: Transition): Step
  {
    Step(a.(slot := t.slot),
      (if t.settled.Some? then [Settle(t.settled.value)] else [])
      + (if t.thrown.Some? then [Throw(t.thrown.value)] else []))
  }

  /** Reacts to one input. A registered handler takes precedence over the
      adapter's default for its event; the two shipping events do nothing
      at all without a handler. */
  function Next(a: Adapter, input: Input): (s: Step)
    ensures s.adapter.version == a.version
  {
    match input
    case Show =>
      var p := a.nextPromise;
      Step(a.(slot := Arm(p), nextPromise := p + 1), [Call(Begin), IssuePromise(p)])
    case Restart =>
      var p := a.nextPromise;
      Step(a.(slot := Arm(p), nextPromise := p + 1), [IssuePromise(p)])
    case AbortRequest =>
      Step(a, [Call(Abort)])
    case CallCanMakePayment =>
      CallOrThrow(a, CanMakePayment(a))
    case CallAddEventListener(eventType, callback) =>
      (match AddEventListener(a, eventType, callback)
       case Ok(a') => Step(a', [])
       case Err(e) => Step(a, [Throw(e)]))
    case CallCompleteMerchantValidation(session) =>
      Step(a, [Call(CompleteMerchantValidation(session))])
    case CallCompletePaymentMethodSelection(total, items) =>
      Step(a, [Call(CompletePaymentMethodSelection(a.version, total, items))])
    case Complete(result, appleError) =>
      CallOrThrow(a, CompletePayment(a.version, result, appleError))
    case VendorValidateMerchant(url) =>
      if ValidateMerchant in a.handlers then Step(a, [Invoke(a.handlers[ValidateMerchant], ValidateMerchantEvent(url))])
      else Step(a, [PostMerchantValidation(a.validationEndpoint, url)])
    case VendorPaymentMethodSelected(choice) =>
      if PaymentMethodSelected in a.handlers then Step(a, [Invoke(a.handlers[PaymentMethodSelected], PaymentMethodSelectedEvent(choice))])
      else Step(a, [Call(DefaultPaymentMethodSelection(a.request))])
    case VendorShippingContactSelected(contact) =>
      if ShippingAddressChange in a.handlers then
        Step(a.(shippingAddress := Some(ConvertPaymentAddress(contact))), [Invoke(a.handlers[ShippingAddressChange], UpdateWithEvent)])
      else Step(a, [])
    case VendorShippingMethodSelected(choice) =>
      if ShippingOptionChange in a.handlers then
        Step(a.(shippingOption := ConvertShippingMethod(a.request.shippingMethods, choice)), [Invoke(a.handlers[ShippingOptionChange], UpdateWithEvent)])
      else Step(a, [])
    case VendorPaymentAuthorized(payment) =>
      ApplyTransition(a, OnPaymentAuthorized(a.slot, payment))
    case VendorCancel =>
      ApplyTransition(a, OnPaymentCanceled(a.slot))
    case ShippingAddressUpdateFulfilled(details) =>
      ApplyCompletion(a, ShippingContactFulfilled(a.version, a.request, details))
    case ShippingAddressUpdateRejected(reason) =>
      ApplyCompletion(a, ShippingContactRejected(a.version, a.request, reason))
    case ShippingOptionUpdateFulfilled(details) =>
      ApplyCompletion(a, ShippingMethodFulfilled(a.version, a.request, details))
    case ShippingOptionUpdateRejected(reason) =>
      ApplyCompletion(a, ShippingMethodRejected(a.version, a.request, reason, a.unknownErrorMessage))
  }

  /** Reacts to a sequence of inputs in order. */
  function Run(a: Adapter, inputs: seq<Input>): Step
    decreases |inputs|
  {
    if |inputs| == 0 then Step(a, [])
    else
      var first := Next(a, inputs[0]);
      var rest := Run(first.adapter, inputs[1..]);
      Step(rest.adapter, first.effects + rest.effects)
  }

  // ---------------------------------------------------------------------
  // Properties of runs

  /** The promises settled by a list of effects, in order. */
  function SettledPromises(effects: seq<Effect>): seq<PromiseId>
  {
    if |effects| == 0 then []
    else (if effects[0].Settle? then [effects[0].settlement.promise] else []) + SettledPromises(effects[1..])
  }

  lemma {:induction false} SettledPromisesAppend(e1: seq<Effect>, e2: seq<Effect>)
    ensures SettledPromises(e1 + e2) == SettledPromises(e1) + SettledPromises(e2)
  {
    if |e1| > 0 {
      assert (e1 + e2)[1..] == e1[1..] + e2;
      SettledPromisesAppend(e1[1..], e2);
    } else {
      assert e1 + e2 == e2;
    }
  }

  ghost predicate NoDuplicates(xs: seq<PromiseId>)
  {
    forall i, j :: 0 <= i < j < |xs| ==> xs[i] != xs[j]
  }

  /** The slot invariant threaded through a run: the slot is coherent, the
      promise it holds was issued, and no promise in `settled` is held again. */
  ghost predicate SlotInvariant(a: Adapter, settled: set<PromiseId>)
  {
    && Coherent(a.slot)
    && (forall q :: q in settled ==> q < a.nextPromise)
    && (a.slot.resolver.Some? ==> a.slot.resolver.value < a.nextPromise && a.slot.resolver.value !in settled)
  }

  /** One step settles at most the promise the slot held, and keeps the
      invariant with that promise added to the settled ones. */
  lemma NextSettlesHeldPromise(a: Adapter, input: Input, settled: set<PromiseId>)
    requires SlotInvariant(a, settled)
    ensures var s := Next(a, input);
      || (SettledPromises(s.effects) == [] && SlotInvariant(s.adapter, settled))
      || (&& a.slot.resolver.Some?
          && SettledPromises(s.effects) == [a.slot.resolver.value]
          && SlotInvariant(s.adapter, settled + {a.slot.resolver.value}))
  {
    if input.VendorPaymentAuthorized? || input.VendorCancel? {
      TerminalEventSettlesHeldPromise(a, input, settled);
    } else if input.Show? || input.Restart? {
      ArmingKeepsSlotInvariant(a, input, settled);
    } else {
      OtherInputKeepsSlot(a, input);
    }
  }

  /** The two terminal vendor events settle at most the held promise and
      leave the slot empty or as it was. */
  lemma TerminalEventSettlesHeldPromise(a: Adapter, input: Input, settled: set<PromiseId>)
    requires SlotInvariant(a, settled)
    requires input.VendorPaymentAuthorized? || input.VendorCancel?
    ensures var s := Next(a, input);
      || (SettledPromises(s.effects) == [] && SlotInvariant(s.adapter, settled))
      || (&& a.slot.resolver.Some?
          && SettledPromises(s.effects) == [a.slot.resolver.value]
          && SlotInvariant(s.adapter, settled + {a.slot.resolver.value}))
  {
    var t := if input.VendorCancel? then OnPaymentCanceled(a.slot) else OnPaymentAuthorized(a.slot, input.payment);
    var settles: seq<Effect> := if t.settled.Some? then [Settle(t.settled.value)] else [];
    var throws: seq<Effect> := if t.thrown.Some? then [Throw(t.thrown.value)] else [];
    SettledPromisesAppend(settles, throws);
    NoSettleEffects(throws);
    assert Next(a, input) == Step(a.(slot := t.slot), settles + throws);
  }

  /** `show()` and `restart()` arm the slot with the promise just issued from
      the counter, which no earlier step has settled, and advance the counter.
      Only `show()` begins the vendor session; `restart()` re-arms without
      beginning it again. */
  lemma ArmingKeepsSlotInvariant(a: Adapter, input: Input, settled: set<PromiseId>)
    requires SlotInvariant(a, settled)
    requires input.Show? || input.Restart?
    ensures Next(a, input) == Step(a.(slot := Arm(a.nextPromise), nextPromise := a.nextPromise + 1),
      (if input.Show? then [Call(Begin)] else []) + [IssuePromise(a.nextPromise)])
    ensures Next(a, input).adapter.slot == Arm(a.nextPromise)
    ensures Next(a, input).adapter.nextPromise == a.nextPromise + 1
    ensures IssuePromise(a.nextPromise) in Next(a, input).effects
    ensures SettledPromises(Next(a, input).effects) == []
    ensures SlotInvariant(Next(a, input).adapter, settled)
  {
    NoSettleEffects(Next(a, input).effects);
  }

  /** Every other input leaves the slot and the promise counter alone and
      settles nothing; `abort()` only forwards to the vendor session. */
  lemma OtherInputKeepsSlot(a: Adapter, input: Input)
    requires !(input.VendorPaymentAuthorized? || input.VendorCancel? || input.Show? || input.Restart?)
    ensures input.AbortRequest? ==> Next(a, input) == Step(a, [Call(Abort)])
    ensures SettledPromises(Next(a, input).effects) == []
    ensures Next(a, input).adapter.slot == a.slot
    ensures Next(a, input).adapter.nextPromise == a.nextPromise
  {
    match input
    case ShippingAddressUpdateFulfilled(details) =>
      ApplyCompletionSettlesNothing(a, ShippingContactFulfilled(a.version, a.request, details));
    case ShippingAddressUpdateRejected(reason) =>
      ApplyCompletionSettlesNothing(a, ShippingContactRejected(a.version, a.request, reason));
    case ShippingOptionUpdateFulfilled(details) =>
      ApplyCompletionSettlesNothing(a, ShippingMethodFulfilled(a.version, a.request, details));
    case ShippingOptionUpdateRejected(reason) =>
      ApplyCompletionSettlesNothing(a, ShippingMethodRejected(a.version, a.request, reason, a.unknownErrorMessage));
    case CallAddEventListener(eventType, callback) =>
      NoSettleEffects(Next(a, input).effects);
    case _ =>
      NoSettleEffects(Next(a, input).effects);
  }

  /** When a shipping `updateWith` promise settles, the adapter keeps the
      rebuilt request, so later events read the updated items, methods and
      total, and issues the continuation's vendor call first (followed by
      the notice when the continuation aborts). A promise settling with no
      details reads a property of `undefined`: a `TypeError`, and nothing
      changes. */
  lemma UpdateWithSettlementStoresRequest(a: Adapter, input: Input)
    requires || input.ShippingAddressUpdateFulfilled? || input.ShippingAddressUpdateRejected?
             || input.ShippingOptionUpdateFulfilled? || input.ShippingOptionUpdateRejected?
    ensures var d := if input.ShippingAddressUpdateFulfilled? || input.ShippingOptionUpdateFulfilled? then input.details else input.reason;
      && (d.None? ==> Next(a, input) == Step(a, [Throw(TypeError)]))
      && (d.Some? ==> Next(a, input).adapter == a.(request := UpdatePaymentDetails(a.request, d.value)))
    ensures input.ShippingAddressUpdateFulfilled? && input.details.Some? ==>
      Next(a, input).effects == [Call(ShippingContactFulfilled(a.version, a.request, input.details).value.call)]
    ensures input.ShippingAddressUpdateRejected? && input.reason.Some? ==>
      Next(a, input).effects == [Call(ShippingContactRejected(a.version, a.request, input.reason).value.call)]
    ensures input.ShippingOptionUpdateFulfilled? && input.details.Some? ==>
      var c := ShippingMethodFulfilled(a.version, a.request, input.details).value;
      Next(a, input).effects == [Call(c.call)] + (if c.notice.Some? then [ShowNotice(c.notice.value)] else [])
    ensures input.ShippingOptionUpdateRejected? && input.reason.Some? ==>
      var c := ShippingMethodRejected(a.version, a.request, input.reason, a.unknownErrorMessage).value;
      Next(a, input).effects == [Call(c.call)] + (if c.notice.Some? then [ShowNotice(c.notice.value)] else [])
  {
  }

  /** Effects that contain no settlement settle no promise. */
  lemma {:induction false} NoSettleEffects(effects: seq<Effect>)
    requires forall i :: 0 <= i < |effects| ==> !effects[i].Settle?
    ensures SettledPromises(effects) == []
    decreases |effects|
  {
    if |effects| > 0 {
      NoSettleEffects(effects[1..]);
    }
  }

  lemma ApplyCompletionSettlesNothing(a: Adapter, r: Result<Completion, Thrown>)
    ensures SettledPromises(ApplyCompletion(a, r).effects) == []
    ensures ApplyCompletion(a, r).adapter.(request := a.request) == a
  {
    if r.Ok? {
      var c := r.value;
      SettledPromisesAppend([Call(c.call)], if c.notice.Some? then [ShowNotice(c.notice.value)] else []);
    }
  }

  /** Joining two duplicate-free lists with no common element is duplicate-free. */
  lemma NoDuplicatesConcat(xs: seq<PromiseId>, ys: seq<PromiseId>)
    requires NoDuplicates(xs) && NoDuplicates(ys)
    requires forall q :: q in xs ==> q !in ys
    ensures NoDuplicates(xs + ys)
  {
    forall i, j | 0 <= i < j < |xs + ys|
      ensures (xs + ys)[i] != (xs + ys)[j]
    {
      if j >= |xs| && i < |xs| {
        assert (xs + ys)[i] == xs[i] && (xs + ys)[j] == ys[j - |xs|];
        assert ys[j - |xs|] in ys;
      }
    }
  }

  /** Over any run, no promise is settled twice and none that was settled
      before the run is settled again. */
  lemma {:induction false} RunSettlesEachPromiseOnce(a: Adapter, inputs: seq<Input>, settled: set<PromiseId>)
    requires SlotInvariant(a, settled)
    ensures NoDuplicates(SettledPromises(Run(a, inputs).effects))
    ensures forall q :: q in SettledPromises(Run(a, inputs).effects) ==> q !in settled
    decreases |inputs|
  {
    if |inputs| > 0 {
      var first := Next(a, inputs[0]);
      var tail := Run(first.adapter, inputs[1..]);
      var now := SettledPromises(first.effects);
      var later := SettledPromises(tail.effects);
      NextSettlesHeldPromise(a, inputs[0], settled);
      var settled' := if now == [] then settled else settled + {a.slot.resolver.value};
      RunSettlesEachPromiseOnce(first.adapter, inputs[1..], settled');
      SettledPromisesAppend(first.effects, tail.effects);
      assert SettledPromises(Run(a, inputs).effects) == now + later;
      assert forall q :: q in now ==> q == a.slot.resolver.value && q in settled' && q !in settled;
      NoDuplicatesConcat(now, later);
    }
  }

  /** Every adapter fresh from the constructor settles each promise at most
      once, however the merchant and the vendor interleave afterwards. */
  lemma ConstructedAdapterSettlesEachPromiseOnce(
    supportsVersion: int -> bool, methods: seq<PaymentMethodData>,
    details: Option<PaymentDetails>, options: Option<PaymentOptions>, inputs: seq<Input>)
    requires exists j :: 0 <= j < |methods| && DeclaresApplePay(methods[j])
    ensures Construct(supportsVersion, methods, details, options).Ok?
    ensures NoDuplicates(SettledPromises(Run(Construct(supportsVersion, methods, details, options).value, inputs).effects))
  {
    RunSettlesEachPromiseOnce(Construct(supportsVersion, methods, details, options).value, inputs, {});
  }

  /** The negotiated version never changes, whatever happens after construction. */
  lemma {:induction false} RunKeepsVersion(a: Adapter, inputs: seq<Input>)
    ensures Run(a, inputs).adapter.version == a.version
    decreases |inputs|
  {
    if |inputs| > 0 {
      RunKeepsVersion(Next(a, inputs[0]).adapter, inputs[1..]);
    }
  }

  // ---------------------------------------------------------------------
  // Scenarios

  /** `show()` begins the session once and a later authorization resolves
      the promise it returned with the converted payment. */
  lemma ShowThenAuthorizeResolves(a: Adapter, payment: Payment)
    requires ConvertPaymentResponse(payment).Ok?
    ensures var shown := Next(a, Show);
      && shown.effects == [Call(Begin), IssuePromise(a.nextPromise)]
      && Next(shown.adapter, VendorPaymentAuthorized(payment)).effects
           == [Settle(Resolved(a.nextPromise, ConvertPaymentResponse(payment).value))]
      && Next(shown.adapter, VendorPaymentAuthorized(payment)).adapter.slot == Empty
  {
  }

  /** `show()` then a cancel rejects the promise with an `AbortError`; a
      second cancel does nothing. */
  lemma ShowThenCancelRejectsOnce(a: Adapter)
    ensures var shown := Next(a, Show).adapter;
      var cancelled := Next(shown, VendorCancel);
      && cancelled.effects == [Settle(Rejected(a.nextPromise, AbortError))]
      && Next(cancelled.adapter, VendorCancel) == Step(cancelled.adapter, [])
  {
  }

  /** A registered handler replaces the adapter's default: the vendor is
      not called back for that event, the handler is invoked instead. */
  lemma HandlerTakesPrecedence(a: Adapter, choice: PaymentMethod, url: string)
    ensures PaymentMethodSelected in a.handlers ==>
      Next(a, VendorPaymentMethodSelected(choice)) == Step(a, [Invoke(a.handlers[PaymentMethodSelected], PaymentMethodSelectedEvent(choice))])
    ensures PaymentMethodSelected !in a.handlers ==>
      Next(a, VendorPaymentMethodSelected(choice)) == Step(a, [Call(DefaultPaymentMethodSelection(a.request))])
    ensures ValidateMerchant in a.handlers ==>
      Next(a, VendorValidateMerchant(url)) == Step(a, [Invoke(a.handlers[ValidateMerchant], ValidateMerchantEvent(url))])
    ensures ValidateMerchant !in a.handlers ==>
      Next(a, VendorValidateMerchant(url)) == Step(a, [PostMerchantValidation(a.validationEndpoint, url)])
  {
  }

  /** With a handler registered, a shipping event first records the
      converted address or the matching shipping-option id, then invokes the
      handler with an `updateWith` object; nothing else changes. */
  lemma ShippingEventsWithHandlerConvertThenInvoke(a: Adapter, contact: PaymentContact, choice: ShippingMethod)
    ensures ShippingAddressChange in a.handlers ==>
      Next(a, VendorShippingContactSelected(contact))
        == Step(a.(shippingAddress := Some(ConvertPaymentAddress(contact))), [Invoke(a.handlers[ShippingAddressChange], UpdateWithEvent)])
    ensures ShippingOptionChange in a.handlers ==>
      Next(a, VendorShippingMethodSelected(choice))
        == Step(a.(shippingOption := ConvertShippingMethod(a.request.shippingMethods, choice)), [Invoke(a.handlers[ShippingOptionChange], UpdateWithEvent)])
    ensures ShippingOptionChange in a.handlers && (exists i :: 0 <= i < |a.request.shippingMethods| && a.request.shippingMethods[i].identifier == choice.identifier) ==>
      Next(a, VendorShippingMethodSelected(choice)).adapter.shippingOption == choice.identifier
  {
  }

  /** `canMakePayment()` on a constructed adapter asks the vendor exactly
      when the first Apple Pay entry supplied a non-empty merchant identifier. */
  lemma CanMakePaymentAfterConstruction(
    supportsVersion: int -> bool, methods: seq<PaymentMethodData>,
    details: Option<PaymentDetails>, options: Option<PaymentOptions>, i: int)
    requires IsFirstApplePay(methods, i)
    ensures Construct(supportsVersion, methods, details, options).Ok?
    ensures CanMakePayment(Construct(supportsVersion, methods, details, options).value).Ok?
      <==> Truthy(methods[i].data.merchantIdentifier)
  {
  }

  /** Without a handler the shipping events change nothing and call nothing. */
  lemma ShippingEventsWithoutHandlerAreSkipped(a: Adapter, contact: PaymentContact, choice: ShippingMethod)
    ensures ShippingAddressChange !in a.handlers ==> Next(a, VendorShippingContactSelected(contact)) == Step(a, [])
    ensures ShippingOptionChange !in a.handlers ==> Next(a, VendorShippingMethodSelected(choice)) == Step(a, [])
  {
  }
}
