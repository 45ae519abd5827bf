/**
 Completion-call selection: which vendor session call the adapter issues
 after each step, in the shape the negotiated version expects. Version 3
 takes one update record; versions 1 and 2 take a status and positional
 arguments. The vendor's handling of these calls is not modelled: a call
 is represented by the value the adapter passes.
 */
module CompletionCalls {
  import opened JsRuntime
  import opened PaymentTypes
  import opened ProtocolNegotiator
  import opened RequestBuilder

  /** What `complete()` throws for a result it does not know. */
  const UnknownStatusMessage: string := "Unknown status code for complete()."

  /** The error code put in an error list the merchant did not supply. */
  const UnknownErrorCode: string := "unknown"

  /** The vendor's `STATUS_SUCCESS` and `STATUS_FAILURE` constants. */
  datatype Status = StatusSuccess | StatusFailure

  /** A version-3 payment authorization result; success carries no error list. */
  datatype AuthorizationResult = AuthorizationResult(status: Status, errors: Option<seq<ApplePayError>>)

  /** A call on the vendor session (or its static capability check). `None`
      in a positional argument is the `null` the adapter passes. */
  datatype VendorCall =
    | Begin
    | Abort
    | CanMakePaymentsWithActiveCard(merchantIdentifier: string)
    | CompleteMerchantValidation(merchantSession: string)
    | CompletePaymentMethodSelectionUpdate(newTotal: Option<LineItem>, newLineItems: seq<LineItem>)
    | CompletePaymentMethodSelectionPositional(total: Option<LineItem>, lineItems: seq<LineItem>)
    | CompleteShippingContactSelectionUpdate(
        errors: seq<ApplePayError>, newLineItems: seq<LineItem>,
        newShippingMethods: seq<ShippingMethod>, newTotal: Option<LineItem>)
    | CompleteShippingContactSelectionPositional(
        status: Status, shippingMethods: seq<ShippingMethod>,
        total: Option<LineItem>, lineItems: seq<LineItem>)
    | CompleteShippingMethodSelectionUpdate(newLineItems: seq<LineItem>, newTotal: Option<LineItem>)
    | CompleteShippingMethodSelectionPositional(status: Status, total: Option<LineItem>, maybeLineItems: Option<seq<LineItem>>)
    | CompletePaymentResult(result: AuthorizationResult)
    | CompletePaymentStatus(status: Status)

  /** Whether a call is one of the single-record (version 3) shapes. */
  predicate IsUpdateShape(c: VendorCall)
  {
    || c.CompletePaymentMethodSelectionUpdate?
    || c.CompleteShippingContactSelectionUpdate?
    || c.CompleteShippingMethodSelectionUpdate?
    || c.CompletePaymentResult?
  }

  /** The status a completion call reports, whatever its shape. */
  function ReportedStatus(c: VendorCall): Option<Status>
  {
    match c
    case CompleteShippingContactSelectionPositional(s, _, _, _) => Some(s)
    case CompleteShippingMethodSelectionPositional(s, _, _) => Some(s)
    case CompletePaymentResult(res) => Some(res.status)
    case CompletePaymentStatus(s) => Some(s)
    case _ => None
  }

  // ---------------------------------------------------------------------
  // Payment completion

  /** The status for a `complete()` result, or the throw for an unknown one.
      The empty string is treated as success. */
  function CompletionStatus(result: string): (r: Result<Status, Thrown>)
    ensures r == Ok(StatusSuccess) <==> result == "success" || result == ""
    ensures r == Ok(StatusFailure) <==> result == "fail" || result == "unknown"
    ensures r.Err? ==> r.error == ThrownString(UnknownStatusMessage)
  {
    if result == "success" || result == "" then Ok(StatusSuccess)
    else if result == "fail" || result == "unknown" then Ok(StatusFailure)
    else Err(ThrownString(UnknownStatusMessage))
  }

  /** The `completePayment` call `complete(result)` issues. At version 3 a
      failure carries the page's `appleError` list, or a one-element
      `unknown` list when there is none; versions 1 and 2 pass the bare status. */
  function CompletePayment(version: Version, result: string, appleError: Option<seq<ApplePayError>>): (r: Result<VendorCall, Thrown>)
    ensures r.Err? <==> result !in {"success", "fail", "unknown", ""}
    ensures r.Err? ==> r.error == ThrownString(UnknownStatusMessage)
    ensures r.Ok? ==> (ReportedStatus(r.value) == Some(StatusSuccess) <==> result == "success" || result == "")
    ensures r.Ok? ==> ReportedStatus(r.value).Some?
    ensures r.Ok? ==> (IsUpdateShape(r.value) <==> version == 3)
    ensures r.Ok? && version != 3 ==> r.value == CompletePaymentStatus(CompletionStatus(result).value)
    ensures r.Ok? && version == 3 ==> r.value.CompletePaymentResult? && r.value.result.status == CompletionStatus(result).value
    ensures r.Ok? && r.value.CompletePaymentResult? ==>
      && (r.value.result.status == StatusSuccess ==> r.value.result.errors == None)
      && (r.value.result.status == StatusFailure ==>
            r.value.result.errors == Some(if appleError.Some? then appleError.value else [ApplePayError(UnknownErrorCode)]))
  {
    match CompletionStatus(result)
    case Err(e) => Err(e)
    case Ok(status) =>
      if version == 3 then
        if status == StatusSuccess then Ok(CompletePaymentResult(AuthorizationResult(status, None)))
        else Ok(CompletePaymentResult(AuthorizationResult(status, Some(if appleError.Some? then appleError.value else [ApplePayError(UnknownErrorCode)]))))
      else Ok(CompletePaymentStatus(status))
  }

  /** The version changes only the shape of the completion call, never
      whether it is issued or which status it reports. */
  lemma CompletePaymentStatusIndependentOfVersion(v1: Version, v2: Version, result: string, e1: Option<seq<ApplePayError>>, e2: Option<seq<ApplePayError>>)
    ensures CompletePayment(v1, result, e1).Ok? <==> CompletePayment(v2, result, e2).Ok?
    ensures CompletePayment(v1, result, e1).Ok? ==>
      ReportedStatus(CompletePayment(v1, result, e1).value) == ReportedStatus(CompletePayment(v2, result, e2).value)
  {
  }

  // ---------------------------------------------------------------------
  // Payment-method selection

  /** The public `completePaymentMethodSelection` helper: one update record
      at version 3, total and line items positionally before. */
  function CompletePaymentMethodSelection(version: Version, newTotal: Option<LineItem>, newLineItems: seq<LineItem>): (c: VendorCall)
    ensures IsUpdateShape(c) <==> version == 3
    ensures c.CompletePaymentMethodSelectionUpdate? || c.CompletePaymentMethodSelectionPositional?
    ensures c.CompletePaymentMethodSelectionUpdate? ==> c.newTotal == newTotal && c.newLineItems == newLineItems
    ensures c.CompletePaymentMethodSelectionPositional? ==> c.total == newTotal && c.lineItems == newLineItems
  {
    if version == 3 then CompletePaymentMethodSelectionUpdate(newTotal, newLineItems)
    else CompletePaymentMethodSelectionPositional(newTotal, newLineItems)
  }

  /** The call the adapter issues itself when no payment-method handler is
      registered: the current total and line items, always positionally. */
  function DefaultPaymentMethodSelection(r: VendorRequest): (c: VendorCall)
    ensures c.CompletePaymentMethodSelectionPositional?
    ensures c.total == r.total && c.lineItems == r.lineItems
  {
    CompletePaymentMethodSelectionPositional(r.total, r.lineItems)
  }

  /** The default branch agrees with the helper before version 3, and at
      version 3 sends the positional shape the helper would not use. */
  lemma DefaultPaymentMethodSelectionIgnoresVersion(version: Version, r: VendorRequest)
    ensures DefaultPaymentMethodSelection(r) == CompletePaymentMethodSelection(version, r.total, r.lineItems) <==> version != 3
  {
  }

  // ---------------------------------------------------------------------
  // Shipping-contact and shipping-method continuations

  /** What a continuation does: the request after the details are applied,
      the vendor call it issues, and, when it aborts the session, the message
      it then shows the user. */
  datatype Completion = Completion(request: VendorRequest, call: VendorCall, notice: Option<string>)

  /** The shipping-contact continuation when the merchant's promise fulfils.
      The details are applied first (reading sections of missing details is a
      `TypeError`); version 3 sends the merchant's `appleError` list (empty if
      none), versions 1 and 2 send failure exactly when the details carry an
      `error`. */
  function ShippingContactFulfilled(version: Version, r: VendorRequest, details: Option<PaymentDetails>): (out: Result<Completion, Thrown>)
    ensures out.Err? <==> details.None?
    ensures out.Err? ==> out.error == TypeError
    ensures out.Ok? ==> out.value.request == UpdatePaymentDetails(r, details.value) && out.value.notice == None
    ensures out.Ok? ==> (IsUpdateShape(out.value.call) <==> version == 3)
    ensures out.Ok? && version == 3 ==>
      out.value.call == CompleteShippingContactSelectionUpdate(
        if details.value.appleError.Some? then details.value.appleError.value else [],
        out.value.request.lineItems, out.value.request.shippingMethods, out.value.request.total)
    ensures out.Ok? && version != 3 ==>
      && out.value.call.CompleteShippingContactSelectionPositional?
      && (out.value.call.status == StatusFailure <==> Truthy(details.value.error))
      && out.value.call.shippingMethods == out.value.request.shippingMethods
      && out.value.call.total == out.value.request.total
      && out.value.call.lineItems == out.value.request.lineItems
  {
    match details
    case None => Err(TypeError)
    case Some(d) =>
      var u := UpdatePaymentDetails(r, d);
      if version == 3 then
        Ok(Completion(u, CompleteShippingContactSelectionUpdate(
          if d.appleError.Some? then d.appleError.value else [], u.lineItems, u.shippingMethods, u.total), None))
      else
        Ok(Completion(u, CompleteShippingContactSelectionPositional(
          if Truthy(d.error) then StatusFailure else StatusSuccess, u.shippingMethods, u.total, u.lineItems), None))
  }

  /** The shipping-contact continuation when the merchant's promise rejects
      with `reason`: the same rebuild, but version 3 falls back to a one-element
      `unknown` error list and versions 1 and 2 always report failure. */
  function ShippingContactRejected(version: Version, r: VendorRequest, reason: Option<PaymentDetails>): (out: Result<Completion, Thrown>)
    ensures out.Err? <==> reason.None?
    ensures out.Err? ==> out.error == TypeError
    ensures out.Ok? ==> out.value.request == UpdatePaymentDetails(r, reason.value) && out.value.notice == None
    ensures out.Ok? ==> (IsUpdateShape(out.value.call) <==> version == 3)
    ensures out.Ok? && version == 3 ==>
      out.value.call == CompleteShippingContactSelectionUpdate(
        if reason.value.appleError.Some? then reason.value.appleError.value else [ApplePayError(UnknownErrorCode)],
        out.value.request.lineItems, out.value.request.shippingMethods, out.value.request.total)
    ensures out.Ok? && version != 3 ==>
      out.value.call == CompleteShippingContactSelectionPositional(
        StatusFailure, out.value.request.shippingMethods, out.value.request.total, out.value.request.lineItems)
  {
    match reason
    case None => Err(TypeError)
    case Some(d) =>
      var u := UpdatePaymentDetails(r, d);
      if version == 3 then
        Ok(Completion(u, CompleteShippingContactSelectionUpdate(
          if d.appleError.Some? then d.appleError.value else [ApplePayError(UnknownErrorCode)], u.lineItems, u.shippingMethods, u.total), None))
      else
        Ok(Completion(u, CompleteShippingContactSelectionPositional(StatusFailure, u.shippingMethods, u.total, u.lineItems), None))
  }

  /** What a rejected shipping-contact update reports. Before version 3 the
      status is always failure. At version 3 the error list is non-empty,
      except when the merchant supplied an empty list itself: an empty array
      is truthy, so it is sent as it is. Fulfilment and rejection with the
      same details send the same items, methods and total. */
  lemma ShippingContactRejectionReportsError(version: Version, r: VendorRequest, d: PaymentDetails)
    ensures var out := ShippingContactRejected(version, r, Some(d)).value;
      && (version == 3 && d.appleError != Some([]) ==> |out.call.errors| > 0)
      && (version == 3 && d.appleError == Some([]) ==> out.call.errors == [])
      && (version != 3 ==> ReportedStatus(out.call) == Some(StatusFailure))
    ensures ShippingContactRejected(version, r, Some(d)).value.request == ShippingContactFulfilled(version, r, Some(d)).value.request
  {
  }

  /** The shipping-method continuation when the merchant's promise fulfils.
      At version 3 details carrying an `error` abort the session (the error
      is then shown to the user) instead of completing it. */
  function ShippingMethodFulfilled(version: Version, r: VendorRequest, details: Option<PaymentDetails>): (out: Result<Completion, Thrown>)
    ensures out.Err? <==> details.None?
    ensures out.Err? ==> out.error == TypeError
    ensures out.Ok? ==> out.value.request == UpdatePaymentDetails(r, details.value)
    ensures out.Ok? ==> (out.value.call == Abort <==> version == 3 && Truthy(details.value.error))
    ensures out.Ok? ==> (out.value.notice.Some? <==> out.value.call == Abort)
    ensures out.Ok? && out.value.call == Abort ==> out.value.notice == details.value.error
    ensures out.Ok? && version == 3 && out.value.call != Abort ==>
      out.value.call == CompleteShippingMethodSelectionUpdate(out.value.request.lineItems, out.value.request.total)
    ensures out.Ok? && version != 3 ==>
      out.value.call == CompleteShippingMethodSelectionPositional(StatusSuccess, out.value.request.total, Some(out.value.request.lineItems))
  {
    match details
    case None => Err(TypeError)
    case Some(d) =>
      var u := UpdatePaymentDetails(r, d);
      if version == 3 then
        if Truthy(d.error) then Ok(Completion(u, Abort, d.error))
        else Ok(Completion(u, CompleteShippingMethodSelectionUpdate(u.lineItems, u.total), None))
      else
        Ok(Completion(u, CompleteShippingMethodSelectionPositional(StatusSuccess, u.total, Some(u.lineItems)), None))
  }

  /** The shipping-method continuation when the merchant's promise rejects:
      version 3 aborts the session and shows the configured unknown-error
      message; versions 1 and 2 report failure with `null` total and items. */
  function ShippingMethodRejected(version: Version, r: VendorRequest, reason: Option<PaymentDetails>, unknownErrorMessage: string): (out: Result<Completion, Thrown>)
    ensures out.Err? <==> reason.None?
    ensures out.Err? ==> out.error == TypeError
    ensures out.Ok? ==> out.value.request == UpdatePaymentDetails(r, reason.value)
    ensures out.Ok? ==> (out.value.call == Abort <==> version == 3)
    ensures out.Ok? && version == 3 ==> out.value.notice == Some(unknownErrorMessage)
    ensures out.Ok? && version != 3 ==>
      out.value.call == CompleteShippingMethodSelectionPositional(StatusFailure, None, None) && out.value.notice == None
  {
    match reason
    case None => Err(TypeError)
    case Some(d) =>
      var u := UpdatePaymentDetails(r, d);
      if version == 3 then Ok(Completion(u, Abort, Some(unknownErrorMessage)))
      else Ok(Completion(u, CompleteShippingMethodSelectionPositional(StatusFailure, None, None), None))
  }

  /** Before version 3 the shipping-method continuations never abort the
      session; at version 3 they never report a status. */
  lemma ShippingMethodAbortsOnlyAtVersion3(version: Version, r: VendorRequest, d: PaymentDetails, msg: string)
    ensures version != 3 ==>
      && ShippingMethodFulfilled(version, r, Some(d)).value.call != Abort
      && ShippingMethodRejected(version, r, Some(d), msg).value.call != Abort
    ensures version == 3 ==>
      && ReportedStatus(ShippingMethodFulfilled(version, r, Some(d)).value.call) == None
      && ReportedStatus(ShippingMethodRejected(version, r, Some(d), msg).value.call) == None
  {
  }
}
