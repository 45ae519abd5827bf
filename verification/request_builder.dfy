/**
 Request building: the pure translation of the generic method data,
 payment details and options into the vendor session-configuration record,
 as the adapter's constructor and its details update do it.
 */
module RequestBuilder {
  import opened JsRuntime
  import opened PaymentTypes
  import opened ProtocolNegotiator

  /** What the constructor throws when no entry names Apple Pay. */
  const MethodNotSpecified: string := "Payment method not specified for Apple Pay."

  /** Merchant capabilities assumed when the method data names none. */
  const DefaultMerchantCapabilities: seq<string> := ["supports3DS"]

  /** The record the constructor starts from, before any input is applied. */
  const InitialRequest: VendorRequest := VendorRequest(
    countryCode := "",
    currencyCode := "",
    lineItems := [],
    merchantCapabilities := DefaultMerchantCapabilities,
    supportedNetworks := [],
    supportedCountries := None,
    total := None,
    billingContact := None,
    shippingContact := None,
    requiredBillingContactFields := [],
    requiredShippingContactFields := [],
    shippingMethods := [],
    shippingType := "shipping")

  // ---------------------------------------------------------------------
  // Method data

  predicate DeclaresApplePay(m: PaymentMethodData)
  {
    ApplePayIdentifier in m.supportedMethods
  }

  /** `i` is the entry the constructor's loop stops at. */
  ghost predicate IsFirstApplePay(methods: seq<PaymentMethodData>, i: int)
  {
    && 0 <= i < |methods|
    && DeclaresApplePay(methods[i])
    && forall j :: 0 <= j < i ==> !DeclaresApplePay(methods[j])
  }

  /** The index of the first entry declaring Apple Pay, if any. */
  function FirstApplePay(methods: seq<PaymentMethodData>): (r: Option<nat>)
    ensures r.None? <==> forall j :: 0 <= j < |methods| ==> !DeclaresApplePay(methods[j])
    ensures r.Some? ==> IsFirstApplePay(methods, r.value)
  {
    if |methods| == 0 then None
    else if DeclaresApplePay(methods[0]) then Some(0)
    else match FirstApplePay(methods[1..])
      case None => None
      case Some(k) => Some(k + 1)
  }

  /** The request fields that come from the chosen method data. */
  ghost predicate ReflectsMethodData(r: VendorRequest, data: ApplePayMethodData, version: Version)
  {
    && r.supportedNetworks == data.supportedNetworks
    && r.countryCode == data.countryCode
    && r.billingContact == data.billingContact
    && r.shippingContact == data.shippingContact
    && r.merchantCapabilities == (if data.merchantCapabilities.Some? then data.merchantCapabilities.value else DefaultMerchantCapabilities)
    && r.supportedCountries == (if version == 3 then data.supportedCountries else None)
  }

  /** The initial record with the chosen entry's data copied on. Supported
      countries are only taken at version 3; an absent contact is left out
      of the record; absent capabilities keep the default. */
  function RequestFromMethodData(data: ApplePayMethodData, version: Version): (r: VendorRequest)
    ensures ReflectsMethodData(r, data, version)
    ensures r.lineItems == [] && r.shippingMethods == [] && r.total == None && r.currencyCode == ""
  {
    InitialRequest.(
      supportedNetworks := data.supportedNetworks,
      countryCode := data.countryCode,
      billingContact := data.billingContact,
      shippingContact := data.shippingContact,
      merchantCapabilities := if data.merchantCapabilities.Some? then data.merchantCapabilities.value else InitialRequest.merchantCapabilities,
      supportedCountries := if version == 3 && data.supportedCountries.Some? then data.supportedCountries else InitialRequest.supportedCountries)
  }

  // ---------------------------------------------------------------------
  // Payment details

  /** A display item or total as a vendor line item. */
  function ConvertItem(item: PaymentItem): (li: LineItem)
    ensures li.kind == Pending <==> item.pending == Some(true)
    ensures li.labelText == item.labelText && li.amount == item.amount.value
  {
    LineItem(if item.pending == Some(true) then Pending else Final, item.labelText, item.amount.value)
  }

  /** The display items as line items, one for one and in order. */
  function ConvertItems(items: seq<PaymentItem>): (r: seq<LineItem>)
    ensures |r| == |items|
    ensures forall i :: 0 <= i < |items| ==>
      && (r[i].kind == Pending <==> items[i].pending == Some(true))
      && r[i].labelText == items[i].labelText
      && r[i].amount == items[i].amount.value
  {
    if |items| == 0 then [] else [ConvertItem(items[0])] + ConvertItems(items[1..])
  }

  /** The short label and detail a shipping option's label splits into. */
  datatype LabelParts = LabelParts(shortLabel: string, detail: string)

  /** Splits a shipping option's label at its first dash, exactly as the
      adapter does: the dash position is used as a truthiness test, so a
      label WITHOUT a dash (position -1, truthy) yields an empty short label
      and the whole label as detail, and a label that STARTS with a dash
      (position 0, falsy) is kept whole with an empty detail. */
  function SplitLabel(text: string): (r: LabelParts)
    ensures '-' !in text ==> r == LabelParts("", Trim(text))
    ensures |text| > 0 && text[0] == '-' ==> r == LabelParts(Trim(text), "")
    ensures forall k :: 0 < k < |text| && text[k] == '-' && '-' !in text[..k] ==>
      r == LabelParts(Trim(text[..k]), Trim(text[k + 1..]))
  {
    var i := IndexOf(text, '-');
    FirstOccurrenceIsIndexOf(text, '-');
    if i != 0 then
      assert Substring(text, 0, i) == (if i < 0 then "" else text[..i]);
      assert SubstringFrom(text, i + 1) == text[i + 1..];
      LabelParts(Trim(Substring(text, 0, i)), Trim(SubstringFrom(text, i + 1)))
    else
      LabelParts(Trim(text), Trim(""))
  }

  /** A dash-free label with nothing to trim ends up entirely in the detail. */
  lemma SplitLabelWithoutDash(text: string)
    requires '-' !in text && HasNoTrimmableEnds(text)
    ensures SplitLabel(text) == LabelParts("", text)
  {
    TrimByCut(text, 0, |text|);
  }

  /** A label with its first dash after a non-empty prefix splits around
      that dash. */
  lemma SplitAtFirstDash(before: string, after: string)
    requires before != [] && '-' !in before
    ensures SplitLabel(before + "-" + after) == LabelParts(Trim(before), Trim(after))
  {
    var text := before + "-" + after;
    var k := |before|;
    assert text == before + ("-" + after);
    assert text[..k] == before && text[k + 1..] == after;
    assert text[k] == '-';
  }

  /** A label written `short - detail` splits back into its two parts,
      provided the short label is non-empty and dash-free and neither part
      has trimmable ends. */
  lemma SplitLabelRecoversParts(short: string, detail: string)
    requires short != [] && '-' !in short
    requires HasNoTrimmableEnds(short) && HasNoTrimmableEnds(detail)
    ensures SplitLabel(short + " - " + detail) == LabelParts(short, detail)
  {
    assert short + " - " + detail == (short + " ") + "-" + (" " + detail);
    SplitAtFirstDash(short + " ", " " + detail);
    TrimDropsPaddingSpaces(short, detail);
  }

  /** Any position holding the first `c` is the one `indexOf` reports. */
  lemma FirstOccurrenceIsIndexOf(text: string, c: char)
    ensures forall k :: 0 <= k < |text| && text[k] == c && c !in text[..k] ==> IndexOf(text, c) == k
  {
    forall k | 0 <= k < |text| && text[k] == c && c !in text[..k]
      ensures IndexOf(text, c) == k
    {
      var i := IndexOf(text, c);
      assert c in text;
      assert forall j :: 0 <= j < k ==> text[..k][j] == text[j];
      assert forall j :: 0 <= j < i ==> text[..i][j] == text[j];
    }
  }

  /** A shipping option as a vendor shipping method. */
  function ConvertShippingOption(o: ShippingOption): (m: ShippingMethod)
    ensures m.labelText == SplitLabel(o.labelText).shortLabel && m.detail == SplitLabel(o.labelText).detail
    ensures m.amount == o.amount.value && m.identifier == o.id
  {
    var parts := SplitLabel(o.labelText);
    ShippingMethod(parts.shortLabel, parts.detail, o.amount.value, o.id)
  }

  /** The shipping options as shipping methods, one for one and in order. */
  function ConvertShippingOptions(options: seq<ShippingOption>): (r: seq<ShippingMethod>)
    ensures |r| == |options|
    ensures forall i :: 0 <= i < |options| ==> r[i] == ConvertShippingOption(options[i])
  {
    if |options| == 0 then [] else [ConvertShippingOption(options[0])] + ConvertShippingOptions(options[1..])
  }

  /** Applies new payment details to the request: each section present in
      `details` replaces the corresponding fields, every other field is kept. */
  function UpdatePaymentDetails(r: VendorRequest, details: PaymentDetails): (u: VendorRequest)
    ensures details.displayItems.None? ==> u.lineItems == r.lineItems
    ensures details.displayItems.Some? ==> u.lineItems == ConvertItems(details.displayItems.value)
    ensures details.shippingOptions.None? ==> u.shippingMethods == r.shippingMethods
    ensures details.shippingOptions.Some? ==> u.shippingMethods == ConvertShippingOptions(details.shippingOptions.value)
    ensures details.total.None? ==> u.total == r.total && u.currencyCode == r.currencyCode
    ensures details.total.Some? ==>
      && u.currencyCode == details.total.value.amount.currency
      && u.total == Some(ConvertItem(details.total.value))
    ensures u.(lineItems := r.lineItems, shippingMethods := r.shippingMethods, total := r.total, currencyCode := r.currencyCode) == r
  {
    var withItems := if details.displayItems.Some? then r.(lineItems := ConvertItems(details.displayItems.value)) else r;
    var withMethods := if details.shippingOptions.Some? then withItems.(shippingMethods := ConvertShippingOptions(details.shippingOptions.value)) else withItems;
    if details.total.Some? then
      withMethods.(currencyCode := details.total.value.amount.currency, total := Some(ConvertItem(details.total.value)))
    else withMethods
  }

  /** Applying the same details twice is applying them once. */
  lemma UpdatePaymentDetailsIdempotent(r: VendorRequest, details: PaymentDetails)
    ensures UpdatePaymentDetails(UpdatePaymentDetails(r, details), details) == UpdatePaymentDetails(r, details)
  {
  }

  /** After two updates each section reflects the most recent details that
      carried it: there is no state mixing parts of one section from two updates. */
  lemma UpdateLatestWins(r: VendorRequest, d1: PaymentDetails, d2: PaymentDetails)
    ensures var u := UpdatePaymentDetails(UpdatePaymentDetails(r, d1), d2);
      && u.lineItems == (if d2.displayItems.Some? then ConvertItems(d2.displayItems.value) else UpdatePaymentDetails(r, d1).lineItems)
      && u.shippingMethods == (if d2.shippingOptions.Some? then ConvertShippingOptions(d2.shippingOptions.value) else UpdatePaymentDetails(r, d1).shippingMethods)
      && u.total == (if d2.total.Some? then Some(ConvertItem(d2.total.value)) else UpdatePaymentDetails(r, d1).total)
      && u.currencyCode == (if d2.total.Some? then d2.total.value.amount.currency else UpdatePaymentDetails(r, d1).currencyCode)
  {
  }

  // ---------------------------------------------------------------------
  // Payment options

  /** The position of a field in the order the constructor adds fields. */
  function Rank(f: ContactField): nat
  {
    match f
    case PostalAddress => 0
    case Name => 1
    case Email => 2
    case Phone => 3
  }

  /** No field twice, and fields in the constructor's order. */
  ghost predicate InRankOrder(fields: seq<ContactField>)
  {
    forall i, j :: 0 <= i < j < |fields| ==> Rank(fields[i]) < Rank(fields[j])
  }

  /** Whether the options ask for field `f` on the shipping contact. */
  predicate RequestsShippingField(options: Option<PaymentOptions>, f: ContactField)
  {
    options.Some? &&
    match f
    case PostalAddress => options.value.requestShipping
    case Name => options.value.requestPayerName
    case Email => options.value.requestPayerEmail
    case Phone => options.value.requestPayerPhone
  }

  datatype RequiredFields = RequiredFields(billing: seq<ContactField>, shipping: seq<ContactField>)

  /** One `push` of the constructor: adds `f` when it is wanted. Fields are
      pushed in rank order, so the list stays in rank order. */
  function PushIf(fields: seq<ContactField>, wanted: bool, f: ContactField): (r: seq<ContactField>)
    requires InRankOrder(fields)
    requires forall g :: g in fields ==> Rank(g) < Rank(f)
    ensures InRankOrder(r)
    ensures forall g :: g in r <==> g in fields || (wanted && g == f)
    ensures forall g :: g in r ==> Rank(g) <= Rank(f)
  {
    if wanted then fields + [f] else fields
  }

  /** The required contact fields the options ask for. Requesting shipping
      requires a postal address on both contacts; payer name, email and
      phone are required on the shipping contact only. */
  function RequiredContactFields(options: Option<PaymentOptions>): (r: RequiredFields)
    ensures forall f :: f in r.billing <==> f == PostalAddress && RequestsShippingField(options, PostalAddress)
    ensures forall f :: f in r.shipping <==> RequestsShippingField(options, f)
    ensures InRankOrder(r.billing) && InRankOrder(r.shipping)
  {
    match options
    case None => RequiredFields([], [])
    case Some(o) =>
      var postal := PushIf([], o.requestShipping, PostalAddress);
      var withName := PushIf(postal, o.requestPayerName, Name);
      var withEmail := PushIf(withName, o.requestPayerEmail, Email);
      RequiredFields(postal, PushIf(withEmail, o.requestPayerPhone, Phone))
  }

  /** Two field lists in constructor order with the same members are equal:
      so the required-field lists are determined by which fields are requested. */
  lemma {:induction false} RankOrderDetermined(xs: seq<ContactField>, ys: seq<ContactField>)
    requires InRankOrder(xs) && InRankOrder(ys)
    requires forall f :: f in xs <==> f in ys
    ensures xs == ys
    decreases |xs| + |ys|
  {
    assert xs != [] ==> xs[0] in ys;
    assert ys != [] ==> ys[0] in xs;
    if xs != [] && ys != [] {
      SameLeast(xs, ys);
      SameTailMembers(xs, ys);
      RankOrderDetermined(xs[1..], ys[1..]);
      assert xs == [xs[0]] + xs[1..];
      assert ys == [ys[0]] + ys[1..];
    }
  }

  /** The head of a list in rank order has the least rank of its members. */
  lemma HeadIsLeast(xs: seq<ContactField>, f: ContactField)
    requires InRankOrder(xs) && f in xs
    ensures Rank(xs[0]) <= Rank(f)
    ensures f != xs[0] ==> Rank(xs[0]) < Rank(f) && f in xs[1..]
  {
    var i :| 0 <= i < |xs| && xs[i] == f;
    if i > 0 {
      assert xs[1..][i - 1] == f;
    }
  }

  /** Two lists in rank order with the same members start alike. */
  lemma SameLeast(xs: seq<ContactField>, ys: seq<ContactField>)
    requires InRankOrder(xs) && InRankOrder(ys) && xs != [] && ys != []
    requires forall f :: f in xs <==> f in ys
    ensures xs[0] == ys[0]
  {
    assert xs[0] in ys && ys[0] in xs;
    HeadIsLeast(xs, ys[0]);
    HeadIsLeast(ys, xs[0]);
  }

  /** Two lists in rank order with the same members and the same head have
      tails with the same members. */
  lemma SameTailMembers(xs: seq<ContactField>, ys: seq<ContactField>)
    requires InRankOrder(xs) && InRankOrder(ys) && xs != [] && ys != []
    requires forall f :: f in xs <==> f in ys
    requires xs[0] == ys[0]
    ensures InRankOrder(xs[1..]) && InRankOrder(ys[1..])
    ensures forall f :: f in xs[1..] <==> f in ys[1..]
  {
    forall f
      ensures f in xs[1..] <==> f in ys[1..]
    {
      if f in xs[1..] {
        var i :| 0 <= i < |xs[1..]| && xs[1..][i] == f;
        assert xs[i + 1] == f;
        HeadIsLeast(ys, f);
      }
      if f in ys[1..] {
        var j :| 0 <= j < |ys[1..]| && ys[1..][j] == f;
        assert ys[j + 1] == f;
        HeadIsLeast(xs, f);
      }
    }
  }

  /** The vendor shipping type for the options: `pickup` becomes
      `servicePickup`, a missing or empty type becomes `shipping`, any other
      type passes through; with no options the initial `shipping` stays. */
  function ShippingTypeFor(options: Option<PaymentOptions>): (t: string)
    ensures t != "" && t != "pickup"
    ensures options.None? ==> t == "shipping"
    ensures options.Some? && options.value.shippingType == Some("pickup") ==> t == "servicePickup"
    ensures options.Some? && !Truthy(options.value.shippingType) ==> t == "shipping"
    ensures options.Some? && Truthy(options.value.shippingType) && options.value.shippingType != Some("pickup") ==>
      t == options.value.shippingType.value
  {
    match options
    case None => InitialRequest.shippingType
    case Some(o) =>
      if o.shippingType == Some("pickup") then "servicePickup"
      else OrElse(o.shippingType, "shipping")
  }

  // ---------------------------------------------------------------------
  // The whole request

  /** The vendor request the constructor builds, or what it throws. */
  function BuildRequest(
    version: Version,
    methods: seq<PaymentMethodData>,
    details: Option<PaymentDetails>,
    options: Option<PaymentOptions>
  ): (r: Result<VendorRequest, Thrown>)
    ensures r.Err? <==> forall j :: 0 <= j < |methods| ==> !DeclaresApplePay(methods[j])
    ensures r.Err? ==> r.error == ThrownString(MethodNotSpecified)
    ensures forall i :: IsFirstApplePay(methods, i) ==> r.Ok? && ReflectsMethodData(r.value, methods[i].data, version)
    ensures r.Ok? ==>
      && r.value.requiredBillingContactFields == RequiredContactFields(options).billing
      && r.value.requiredShippingContactFields == RequiredContactFields(options).shipping
      && r.value.shippingType == ShippingTypeFor(options)
    ensures r.Ok? ==>
      var sections := if details.Some? then UpdatePaymentDetails(InitialRequest, details.value) else InitialRequest;
      && r.value.lineItems == sections.lineItems
      && r.value.shippingMethods == sections.shippingMethods
      && r.value.total == sections.total
      && r.value.currencyCode == sections.currencyCode
  {
    FirstApplePayUnique(methods);
    match FirstApplePay(methods)
    case None => Err(ThrownString(MethodNotSpecified))
    case Some(i) =>
      var withData := RequestFromMethodData(methods[i].data, version);
      var withDetails := if details.Some? then UpdatePaymentDetails(withData, details.value) else withData;
      var fields := RequiredContactFields(options);
      Ok(withDetails.(
        requiredBillingContactFields := fields.billing,
        requiredShippingContactFields := fields.shipping,
        shippingType := ShippingTypeFor(options)))
  }

  /** Entries after the first Apple Pay entry are never read. */
  lemma BuildRequestIgnoresLaterEntries(
    version: Version, methods: seq<PaymentMethodData>, later: seq<PaymentMethodData>,
    details: Option<PaymentDetails>, options: Option<PaymentOptions>)
    requires exists j :: 0 <= j < |methods| && DeclaresApplePay(methods[j])
    ensures BuildRequest(version, methods + later, details, options) == BuildRequest(version, methods, details, options)
  {
    var i := FirstApplePay(methods).value;
    assert IsFirstApplePay(methods + later, i);
    FirstApplePayUnique(methods + later);
  }

  /** Entries before the first Apple Pay entry are never read either. */
  lemma BuildRequestIgnoresEarlierEntries(
    version: Version, earlier: seq<PaymentMethodData>, methods: seq<PaymentMethodData>,
    details: Option<PaymentDetails>, options: Option<PaymentOptions>)
    requires forall j :: 0 <= j < |earlier| ==> !DeclaresApplePay(earlier[j])
    ensures BuildRequest(version, earlier + methods, details, options) == BuildRequest(version, methods, details, options)
  {
    var all := earlier + methods;
    var first := FirstApplePay(methods);
    if first.Some? {
      var i := first.value;
      assert IsFirstApplePay(all, |earlier| + i) by {
        forall j | 0 <= j < |earlier| + i
          ensures !DeclaresApplePay(all[j])
        {
          if j >= |earlier| { assert all[j] == methods[j - |earlier|]; }
        }
      }
      FirstApplePayUnique(all);
    } else {
      assert forall j :: 0 <= j < |all| ==> !DeclaresApplePay(all[j]) by {
        forall j | 0 <= j < |all|
          ensures !DeclaresApplePay(all[j])
        {
          if j >= |earlier| { assert all[j] == methods[j - |earlier|]; }
        }
      }
    }
  }

  /** At most one index is the first Apple Pay entry. */
  lemma FirstApplePayUnique(methods: seq<PaymentMethodData>)
    ensures forall i, k :: IsFirstApplePay(methods, i) && IsFirstApplePay(methods, k) ==> i == k
  {
    forall i, k | IsFirstApplePay(methods, i) && IsFirstApplePay(methods, k)
      ensures i == k
    {
      assert DeclaresApplePay(methods[i]) && DeclaresApplePay(methods[k]);
    }
  }
}
