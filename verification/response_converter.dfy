/**
 Conversions from the vendor's event records to the generic shapes handed
 to merchants: contacts to postal addresses, the selected shipping method
 to a shipping-option id, and the authorized payment to a payment response.
 */
module ResponseConverter {
  import opened JsRuntime
  import opened PaymentTypes

  /** `${given} ${family}`: the recipient and payer-name text. */
  function FullName(c: PaymentContact): string
  {
    TemplateText(c.givenName) + " " + TemplateText(c.familyName)
  }

  /** A vendor contact as a generic postal address. Missing fields become
      empty; the sorting code is filled from the contact's `country` name
      and the fields Apple Pay has no counterpart for stay empty. */
  function ConvertPaymentAddress(c: PaymentContact): (a: PaymentAddress)
    ensures a.country == OrElse(c.countryCode, "")
    ensures a.addressLine == (if c.addressLines.Some? then c.addressLines.value else [])
    ensures a.region == OrElse(c.administrativeArea, "")
    ensures a.city == OrElse(c.locality, "")
    ensures a.postalCode == OrElse(c.postalCode, "")
    ensures a.sortingCode == OrElse(c.country, "")
    ensures a.phone == OrElse(c.phoneNumber, "")
    ensures a.dependentLocality == "" && a.languageCode == "" && a.organization == ""
    ensures c.givenName.Defined? && c.familyName.Defined? ==>
      a.recipient == c.givenName.value + " " + c.familyName.value
    ensures c.givenName == Null && c.familyName.Defined? ==> a.recipient == "null " + c.familyName.value
    ensures c.givenName == Undefined && c.familyName.Defined? ==> a.recipient == "undefined " + c.familyName.value
    ensures a.recipient == TemplateText(c.givenName) + " " + TemplateText(c.familyName)
  {
    PaymentAddress(
      country := OrElse(c.countryCode, ""),
      addressLine := if c.addressLines.Some? then c.addressLines.value else [],
      region := OrElse(c.administrativeArea, ""),
      city := OrElse(c.locality, ""),
      dependentLocality := "",
      postalCode := OrElse(c.postalCode, ""),
      sortingCode := OrElse(c.country, ""),
      languageCode := "",
      organization := "",
      recipient := FullName(c),
      phone := OrElse(c.phoneNumber, ""))
  }

  /** A contact carrying exactly an address's fields (names included). */
  function ContactFor(a: PaymentAddress, given: string, family: string): PaymentContact
  {
    PaymentContact(
      countryCode := Some(a.country),
      addressLines := Some(a.addressLine),
      administrativeArea := Some(a.region),
      locality := Some(a.city),
      postalCode := Some(a.postalCode),
      country := Some(a.sortingCode),
      givenName := Defined(given),
      familyName := Defined(family),
      phoneNumber := Some(a.phone),
      emailAddress := None)
  }

  /** Every address the vendor can express survives the trip through a
      contact: the conversion loses nothing but the three fields Apple Pay
      has no counterpart for. */
  lemma ConvertPaymentAddressRoundTrip(a: PaymentAddress, given: string, family: string)
    requires a.dependentLocality == "" && a.languageCode == "" && a.organization == ""
    requires a.recipient == given + " " + family
    ensures ConvertPaymentAddress(ContactFor(a, given, family)) == a
  {
  }

  /** The shipping-option id for the method the user selected: its
      identifier when some current shipping method carries that identifier,
      the empty string otherwise. */
  function ConvertShippingMethod(methods: seq<ShippingMethod>, selected: ShippingMethod): (id: string)
    ensures (exists i :: 0 <= i < |methods| && methods[i].identifier == selected.identifier) ==> id == selected.identifier
    ensures (forall i :: 0 <= i < |methods| ==> methods[i].identifier != selected.identifier) ==> id == ""
  {
    if |methods| == 0 then ""
    else if methods[0].identifier == selected.identifier then methods[0].identifier
    else
      var rest := ConvertShippingMethod(methods[1..], selected);
      assert forall i :: 1 <= i < |methods| ==> methods[i] == methods[1..][i - 1];
      rest
  }

  /** The authorized payment as a generic payment response. Reading either
      contact when the payment lacks it is a `TypeError`. Payer email and
      phone come from the shipping contact, the payer name from the billing
      contact; the shipping option is not reported back here. */
  function ConvertPaymentResponse(p: Payment): (r: Result<PaymentResponse, Thrown>)
    ensures r.Err? <==> p.shippingContact.None? || p.billingContact.None?
    ensures r.Err? ==> r.error == TypeError
    ensures r.Ok? ==>
      && r.value.shippingAddress == ConvertPaymentAddress(p.shippingContact.value)
      && r.value.billingAddress == ConvertPaymentAddress(p.billingContact.value)
      && r.value.payerEmail == p.shippingContact.value.emailAddress
      && r.value.payerPhone == p.shippingContact.value.phoneNumber
      && r.value.payerName == r.value.billingAddress.recipient
      && r.value.payerName == TemplateText(p.billingContact.value.givenName) + " " + TemplateText(p.billingContact.value.familyName)
      && r.value.methodName == ApplePayIdentifier
      && r.value.shippingOption == ""
      && r.value.applePayRaw == p
  {
    match (p.shippingContact, p.billingContact)
    case (Some(shipping), Some(billing)) =>
      Ok(PaymentResponse(
        billingAddress := ConvertPaymentAddress(billing),
        methodName := ApplePayIdentifier,
        payerEmail := shipping.emailAddress,
        payerName := FullName(billing),
        payerPhone := shipping.phoneNumber,
        shippingAddress := ConvertPaymentAddress(shipping),
        shippingOption := "",
        applePayRaw := p))
    case _ => Err(TypeError)
  }

  /** The payer name joins the billing contact's given and family names, and
      the shipping address's country is the shipping contact's country code. */
  lemma PaymentResponseNamesAndCountry(p: Payment, given: string, family: string, country: string)
    requires p.billingContact.Some? && p.shippingContact.Some?
    requires p.billingContact.value.givenName == Defined(given)
    requires p.billingContact.value.familyName == Defined(family)
    requires p.shippingContact.value.countryCode == Some(country)
    ensures ConvertPaymentResponse(p).Ok?
    ensures ConvertPaymentResponse(p).value.payerName == given + " " + family
    ensures ConvertPaymentResponse(p).value.shippingAddress.country == country
  {
  }
}
