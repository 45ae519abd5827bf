# Apple Pay adapter for the Payment Request API — a Dafny model

The adapter is a browser shim. It exposes a Payment Request-style object
(`new PaymentRequest(methodData, details, options)`, `show()`, `abort()`,
`canMakePayment()`, `addEventListener()`, `complete()`), and implements it on
top of the vendor's Apple Pay JS session. This project models the
deterministic core of that shim, `src/index.ts`:

- **Version negotiation.** The adapter asks the vendor's `supportsVersion`
  probe which Apple Pay JS version to use.
- **Request building.** The constructor translates method data, payment
  details and options into the vendor session-configuration record. It
  selects the first method-data entry that names
  `https://apple.com/apple-pay` and applies the defaults. It converts line
  items, shipping options and the total, maps required contact fields and
  the shipping type, and applies later detail updates.
- **Record conversions.** Vendor contacts become generic postal addresses, a
  selected shipping method becomes a shipping-option id, and an authorized
  payment becomes a payment response.
- **The pending operation.** This is the resolver/rejector pair that `show()`
  and `restart()` install. The payment-authorized event resolves it, the
  cancel event rejects it, and both clear it.
- **Completion-call selection.** This decides which vendor call the adapter
  issues, and in which shape: one update record at version 3, positional
  arguments at versions 1 and 2. It covers `complete()`,
  `completePaymentMethodSelection()`, the default payment-method branch, and
  the fulfil and reject continuations of the two shipping `updateWith`
  promises.
- **The adapter as a state machine.** Every merchant call and vendor event is
  an `Input`. `Next` gives the new adapter state and the ordered list of
  effects: vendor calls, handler invocations, promise settlements, thrown
  values and the merchant-validation post. `Run` folds a sequence of inputs.

JavaScript semantics are written out where the code depends on them:

- truthiness of optional strings and `x || fallback`;
- `${x}` printing `undefined` and `null` as those words;
- `indexOf`, and `substring` with its clamping and swapping;
- `trim` over the ECMAScript 2017 WhiteSpace and LineTerminator sets;
- the `TypeError` raised when a property of `undefined` is read.

These live in `JsRuntime`. A promise is named by a number the adapter issues
from a counter. Merchant callbacks are named by opaque ids.

Modules, leaves first:

- `JsRuntime`: `Option`, `Result`, thrown values, string built-ins.
- `PaymentTypes`: generic and vendor records.
- `ProtocolNegotiator`
- `RequestBuilder`
- `ResponseConverter`
- `CompletionCalls`
- `PendingOperation`
- `SessionAdapter`

### Behaviour of the code that a reader may not expect (modelled as written)

- **Shipping-option labels.** The code tests `indexOf('-')` for
  truthiness (`src/index.ts:171-172`), so the model does the same:
  - A dash-free label (index `-1`, truthy) gets an empty short label, and the
    whole label becomes the detail.
  - A label starting with `-` (index `0`, falsy) is kept whole, with an empty
    detail.
  - `"Express"` therefore splits into `("", "Express")`. This is what
    `RequestBuilder.SplitLabel` states and `RequestBuilder.SplitLabelWithoutDash`
    restates.
- **Default payment-method-selected branch.** Without a handler, the code
  issues the two-argument positional call even at version 3
  (`src/index.ts:383`). The public helper picks the shape by version
  (`src/index.ts:307-318`).
  `CompletionCalls.DefaultPaymentMethodSelectionIgnoresVersion` proves that
  the two differ exactly at version 3.
- **Several Apple Pay entries.** The constructor's loop stops at the first
  matching entry (`src/index.ts:100`) and never reads the rest.
  `RequestBuilder.BuildRequestIgnoresLaterEntries` states this.
- **Payer names.** `recipient` and `payerName` are built with a template
  literal (`src/index.ts:211`, `src/index.ts:242`). A missing name therefore
  prints as `undefined`, and a `null` name prints as `null`. The two name
  fields are `Nullable`, so the model keeps the two cases apart.
- **Missing records.** When `updateWith` settles with no details, or an
  authorized payment lacks a contact, the code reads a property of
  `undefined`. The model returns a `TypeError` for both. In the payment
  case the pending pair is left as it was.

## Model

| member | source | states |
|---|---|---|
| JsRuntime.OrElse | src/index.ts:202-212 | `x \|\| fallback` yields `x` exactly when `x` is a non-empty string, and the fallback otherwise |
| JsRuntime.Trim | src/index.ts:171-172 | the result is the input with its whitespace/line-terminator prefix and suffix cut off, and is no longer than the input |
| JsRuntime.TrimOfUnique | src/index.ts:171-172 | only one string is the trim of a given string, so `Trim` is fully determined by its specification |
| JsRuntime.TrimByCut | src/index.ts:171-172 | any cut of a string's trimmable ends gives its trim |
| JsRuntime.TrimIdempotent | src/index.ts:171-172 | trimming a trimmed label changes nothing |
| JsRuntime.TrimDropsPaddingSpaces | src/index.ts:171-172 | the spaces around the dash in `short - detail` are trimmed away and nothing else is |
| JsRuntime.IndexOf | src/index.ts:171-172 | `indexOf` returns -1 exactly when the character is absent, and otherwise its first position |
| ProtocolNegotiator.Negotiate | src/index.ts:65-69 | the version is 3 if the probe supports 3, else 2 if it supports 2, else 1 |
| ProtocolNegotiator.NegotiateIsHighestSupported | src/index.ts:65-69 | no version the probe confirms (up to 3) is higher than the negotiated one |
| RequestBuilder.FirstApplePay | src/index.ts:72-102 | the loop stops at the first entry whose `supportedMethods` contains the Apple Pay identifier, and finds none exactly when no entry does |
| RequestBuilder.FirstApplePayUnique | src/index.ts:72-102 | at most one entry is the first Apple Pay entry |
| RequestBuilder.RequestFromMethodData | src/index.ts:75-92 | networks, country and contacts are copied; absent contacts are left out; absent capabilities keep `['supports3DS']`; supported countries are taken only at version 3 |
| RequestBuilder.ConvertItem | src/index.ts:158-162 | a line item is `pending` exactly when `pending === true`; its label and amount value are copied |
| RequestBuilder.ConvertItems | src/index.ts:155-165 | display items become line items one for one, in order, with kind, label and amount as for a single item |
| RequestBuilder.SplitLabel | src/index.ts:171-172 | a dash-free label gives `("", trim(label))`; a leading dash gives `(trim(label), "")`; a first dash at k > 0 gives the trimmed text before and after it |
| RequestBuilder.FirstOccurrenceIsIndexOf | src/index.ts:171-172 | the position of the first dash is the one `indexOf('-')` reports |
| RequestBuilder.SplitLabelWithoutDash | src/index.ts:171-172 | a dash-free label with nothing to trim ends up entirely in the detail, with an empty short label |
| RequestBuilder.SplitAtFirstDash | src/index.ts:171-172 | a label `before-after` with a non-empty dash-free `before` splits into `(trim(before), trim(after))` |
| RequestBuilder.SplitLabelRecoversParts | src/index.ts:171-172 | a label written `short - detail` splits back into `short` and `detail` (an inverse of the formatting) |
| RequestBuilder.ConvertShippingOption | src/index.ts:170-175 | a shipping method carries the split label, the amount value and the option id |
| RequestBuilder.ConvertShippingOptions | src/index.ts:167-178 | shipping options become shipping methods one for one, in order |
| RequestBuilder.UpdatePaymentDetails | src/index.ts:154-188 | each section present in the details replaces line items, shipping methods, or total and currency code; absent sections and every other field are unchanged |
| RequestBuilder.UpdatePaymentDetailsIdempotent | src/index.ts:154-188 | applying the same details twice equals applying them once |
| RequestBuilder.UpdateLatestWins | src/index.ts:154-188 | after two updates each section (line items, shipping methods, and the total with its currency code) reflects the latest details that carried it |
| RequestBuilder.PushIf | src/index.ts:115-127 | one conditional `push` adds the field exactly when wanted and keeps the list in the constructor's order |
| RequestBuilder.RequiredContactFields | src/index.ts:114-127 | `postalAddress` is required on both contacts exactly when shipping is requested; name, email and phone are required on the shipping contact exactly when asked for; no field twice and in push order; no options gives empty lists |
| RequestBuilder.RankOrderDetermined | src/index.ts:114-127 | two field lists in push order with the same members are equal, so the lists are determined by the flags |
| RequestBuilder.ShippingTypeFor | src/index.ts:128-132 | `pickup` becomes `servicePickup`, a missing or empty type becomes `shipping`, any other type passes through, and no options keeps `shipping` |
| RequestBuilder.BuildRequest | src/index.ts:49-133 | construction fails with the "not specified" message exactly when no entry names Apple Pay; otherwise the first such entry's data, the details' sections and the options' fields make up the request |
| RequestBuilder.BuildRequestIgnoresLaterEntries | src/index.ts:72-101 | entries after the first Apple Pay entry do not affect the request |
| RequestBuilder.BuildRequestIgnoresEarlierEntries | src/index.ts:72-101 | entries before it that do not name Apple Pay do not affect it either |
| ResponseConverter.ConvertPaymentAddress | src/index.ts:200-215 | missing contact fields become empty; `sortingCode` comes from the contact's `country`; the recipient is `given family` as a template literal prints it, with `undefined` or `null` for a name that is undefined or null |
| ResponseConverter.ConvertPaymentAddressRoundTrip | src/index.ts:200-215 | an address with no dependent locality, language code or organization survives conversion from the matching contact unchanged |
| ResponseConverter.ConvertShippingMethod | src/index.ts:220-227 | the selected identifier is returned exactly when a current shipping method carries it, and `""` otherwise |
| ResponseConverter.ConvertPaymentResponse | src/index.ts:233-250 | a payment missing either contact throws a `TypeError`; otherwise the addresses are converted, email and phone come from the shipping contact, the payer name is the billing contact's `given family` as a template literal prints it, and the raw payment is kept |
| ResponseConverter.PaymentResponseNamesAndCountry | src/index.ts:233-250 | the payer name joins the billing names and the shipping address's country is the shipping country code |
| PendingOperation.Arm | src/index.ts:255-281 | `show()` and `restart()` set the resolver and rejector together, both for the new promise |
| PendingOperation.OnPaymentAuthorized | src/index.ts:505-515 | with a resolver, a successful conversion resolves its promise and clears both fields; a throwing conversion changes nothing; without a resolver nothing happens |
| PendingOperation.OnPaymentCanceled | src/index.ts:520-528 | with a rejector, its promise is rejected with an `AbortError` and both fields are cleared; otherwise nothing happens |
| PendingOperation.EventsKeepSlotCoherent | src/index.ts:505-528 | neither event leaves only one of the two fields set, and a settlement names the promise the slot held |
| PendingOperation.CancelAfterSettlementIsNoOp | src/index.ts:520-528 | a second cancel, or a cancel after a resolved authorization, is a no-op |
| CompletionCalls.CompletionStatus | src/index.ts:535-555 | `success` and `""` mean success, `fail` and `unknown` mean failure, any other value throws the unknown-status message |
| CompletionCalls.CompletePayment | src/index.ts:534-576 | the call is issued exactly for the four accepted results; version 3 sends `completePayment` with a result record (success without errors, failure with the page's errors or one `unknown` error), versions 1 and 2 send `completePayment` with the bare status |
| CompletionCalls.CompletePaymentStatusIndependentOfVersion | src/index.ts:557-573 | the version changes the shape of the call but not whether it is issued or the status it reports |
| CompletionCalls.CompletePaymentMethodSelection | src/index.ts:307-318 | one update record at version 3, positional total and items otherwise, with the same values |
| CompletionCalls.DefaultPaymentMethodSelection | src/index.ts:380-384 | without a handler the current total and line items are sent positionally |
| CompletionCalls.DefaultPaymentMethodSelectionIgnoresVersion | src/index.ts:378-384 | the default branch agrees with the version-aware helper exactly when the version is not 3 |
| CompletionCalls.ShippingContactFulfilled | src/index.ts:404-421 | missing details throw; otherwise the details are applied and version 3 sends the merchant's error list (or none), while versions 1 and 2 send failure exactly when the details carry an `error` |
| CompletionCalls.ShippingContactRejected | src/index.ts:422-438 | the same rebuild, but version 3 falls back to one `unknown` error and versions 1 and 2 always send failure |
| CompletionCalls.ShippingContactRejectionReportsError | src/index.ts:422-438 | before version 3 a rejection always reports failure; at version 3 it sends a non-empty error list, unless the merchant supplied an empty list, which is sent as it is; and it rebuilds the same request a fulfilment would |
| CompletionCalls.ShippingMethodFulfilled | src/index.ts:461-481 | missing details throw; version 3 aborts and shows the error exactly when the details carry one, and otherwise sends items and total; versions 1 and 2 send success positionally |
| CompletionCalls.ShippingMethodRejected | src/index.ts:482-495 | version 3 aborts and shows the configured unknown-error message; versions 1 and 2 send failure with `null` total and items |
| CompletionCalls.ShippingMethodAbortsOnlyAtVersion3 | src/index.ts:461-495 | before version 3 the continuations never abort; at version 3 they never report a status |
| SessionAdapter.ParseEventKind | src/index.ts:325-329 | each of the four customizable event names maps to its own handler kind |
| SessionAdapter.AddEventListener | src/index.ts:325-334 | only the four names are accepted and any other throws the unknown-type message; only that handler entry changes, to the callback or to none |
| SessionAdapter.CanMakePayment | src/index.ts:294-300 | the vendor is asked with the merchant identifier exactly when one is set; otherwise the missing-identifier message is thrown |
| SessionAdapter.Construct | src/index.ts:44-149 | fails exactly as `BuildRequest` does; otherwise the version is the negotiated one, the first Apple Pay entry supplies the endpoint, identifier and unknown-error message, and no handler or payment is pending |
| SessionAdapter.Next | src/index.ts:27 | no step changes the negotiated version |
| SessionAdapter.RunKeepsVersion | src/index.ts:27 | the negotiated version is never reassigned over any run |
| SessionAdapter.NextSettlesHeldPromise | src/index.ts:505-528 | one step settles nothing, or settles exactly the promise the slot held, and keeps the slot invariant |
| SessionAdapter.TerminalEventSettlesHeldPromise | src/index.ts:505-528 | the authorized and cancel events settle at most the held promise |
| SessionAdapter.ArmingKeepsSlotInvariant | src/index.ts:255-281 | `show()` begins the vendor session and `restart()` does not; both arm the slot with the promise just issued from the counter and advance the counter, so the armed promise was never settled before; nothing else changes |
| SessionAdapter.OtherInputKeepsSlot | src/index.ts:29-30 | every other input leaves the resolver/rejector pair and the promise counter alone and settles nothing; `abort()` (src/index.ts:286-289) only forwards `abort` to the vendor session |
| SessionAdapter.UpdateWithSettlementStoresRequest | src/index.ts:403-496 | when an `updateWith` promise settles with details, the adapter keeps the request rebuilt from them for later events and issues the matching continuation's vendor call first (then the notice when it aborts); with no details it throws `TypeError` and nothing changes |
| SessionAdapter.RunSettlesEachPromiseOnce | src/index.ts:505-528 | over any interleaving of calls and events no promise is settled twice, and none settled before is settled again |
| SessionAdapter.ConstructedAdapterSettlesEachPromiseOnce | src/index.ts:255-281 | a freshly constructed adapter settles each promise at most once, whatever follows |
| SessionAdapter.ShowThenAuthorizeResolves | src/index.ts:255-266 | `show()` begins the session and a later authorization resolves its promise with the converted payment and empties the slot |
| SessionAdapter.ShowThenCancelRejectsOnce | src/index.ts:520-528 | `show()` then cancel rejects its promise with an `AbortError`, and a second cancel does nothing |
| SessionAdapter.HandlerTakesPrecedence | src/index.ts:340-385 | a registered payment-method or merchant-validation handler is invoked instead of the default; without one the default positional call is sent, or the endpoint post is made; the state is unchanged |
| SessionAdapter.ShippingEventsWithHandlerConvertThenInvoke | src/index.ts:391-459 | with a handler, a shipping-contact event stores the converted address and a shipping-method event stores the matching option id (the selected identifier when a current method carries it), then the handler is invoked; nothing else changes |
| SessionAdapter.CanMakePaymentAfterConstruction | src/index.ts:294-300 | on a constructed adapter the vendor is asked exactly when the first Apple Pay entry gave a non-empty merchant identifier |
| SessionAdapter.ShippingEventsWithoutHandlerAreSkipped | src/index.ts:391-451 | without a handler the shipping-contact and shipping-method events change nothing and call nothing |

## Left out

- The merchant-validation request (`src/index.ts:348-365`). This is an
  XMLHttpRequest POST, JSON encoding and parsing, and a promise chain. It is
  represented only by the `PostMerchantValidation(endpoint, validationURL)`
  effect. Completing merchant validation is then the merchant-facing
  `CallCompleteMerchantValidation` input.
- `alert`, `console.log` and `e.stopPropagation()`. `alert` is network-free UI
  and is kept only as the `ShowNotice` message emitted after an abort. The
  other two have no observable effect on the adapter.
- The `window.ApplePaySession` presence test (`src/index.ts:19`). It decides
  whether the class is defined at all.
- The `window.appleError` global (`src/index.ts:566`). It is a parameter of
  `CompletionCalls.CompletePayment`.
- Constructing the vendor session and subscribing to its six events
  (`src/index.ts:135-148`). `SessionAdapter.Construct` returns the adapter
  state. The subscriptions are represented by `Next` reacting to each
  vendor event.
- The vendor session itself. `begin`, `abort`, `canMakePaymentsWithActiveCard`
  and the completion calls are foreign calls, represented by the
  `VendorCall` value passed. What they return, including the boolean of
  `canMakePaymentsWithActiveCard`, is not modelled.
- Promise scheduling. A merchant's `updateWith` promise settling is an
  input (`ShippingAddressUpdateFulfilled` and the like) that the model
  accepts at any time, even without an earlier shipping event. This
  over-approximates the real ordering, so the run properties hold a fortiori.
- `supportedMethods` given as a single string. JavaScript `indexOf` would
  then do a substring search. Only the array form is modelled.
- Method-data entries without a `data` member, and values of the wrong
  JavaScript type (numbers as labels, a non-array `supportedCountries`).
  The records are typed, and an absent `supportedCountries` is `None`.
- `updatePaymentMethod` (`src/index.ts:193-195`). Its body is empty.
- `paymentRequestID` and the public `shippingType` field. Nothing in the
  adapter writes them. The shipping type that matters is the one in the
  vendor request.
- Fields of a vendor error record other than its `code`.
- `null` versus `undefined` for the optional contact fields other than the
  two names. The code reads them through `||` or passes them on unchanged.
  In the model both are `None`, so a `payerEmail` or `payerPhone` of `null`
  and one of `undefined` are the same value.
- The `details` wrapper around `billingAddress` in the payment response
  (`src/index.ts:237-239`). It is flattened into `PaymentResponse.billingAddress`.
- The `complete` hook on the payment response (`src/index.ts:247`). It is the
  `Complete` input, handled by `CompletionCalls.CompletePayment`.
- JavaScript's dynamic `this['on' + type]` property lookup. Handlers are a
  map from a closed set of event kinds. A falsy callback removes the entry.
- The rejection value of the merchant's promise. It is assumed to be a
  payment-details record or absent, as the code reads it.
