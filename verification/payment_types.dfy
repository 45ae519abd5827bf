/**
 The records the adapter translates between: the generic Payment Request
 shapes merchants write against, and the Apple Pay JS shapes the vendor
 session consumes and emits. Fields the adapter reads through JavaScript
 truthiness or that may be `undefined` are `Option`s.
 */
module PaymentTypes {
  import opened JsRuntime

  /** The `supportedMethods` entry that selects this adapter. */
  const ApplePayIdentifier: string := "https://apple.com/apple-pay"

  // ---------------------------------------------------------------------
  // Generic (Payment Request) side

  datatype CurrencyAmount = CurrencyAmount(currency: string, value: string)

  /** A display item or total; `pending` is only honoured when it is `true`. */
  datatype PaymentItem = PaymentItem(labelText: string, amount: CurrencyAmount, pending: Option<bool>)

  datatype ShippingOption = ShippingOption(id: string, labelText: string, amount: CurrencyAmount)

  /** Payment details. Each section is replaced only when present; `error`
      and `appleError` are the merchant's error channels on updates. */
  datatype PaymentDetails = PaymentDetails(
    total: Option<PaymentItem>,
    displayItems: Option<seq<PaymentItem>>,
    shippingOptions: Option<seq<ShippingOption>>,
    error: Option<string>,
    appleError: Option<seq<ApplePayError>>)

  datatype PaymentOptions = PaymentOptions(
    requestPayerName: bool,
    requestPayerEmail: bool,
    requestPayerPhone: bool,
    requestShipping: bool,
    shippingType: Option<string>)

  /** The `data` member of an Apple Pay method-data entry. */
  datatype ApplePayMethodData = ApplePayMethodData(
    supportedNetworks: seq<string>,
    countryCode: string,
    billingContact: Option<PaymentContact>,
    shippingContact: Option<PaymentContact>,
    merchantCapabilities: Option<seq<string>>,
    supportedCountries: Option<seq<string>>,
    unknownErrorMessage: Option<string>,
    validationEndpoint: Option<string>,
    merchantIdentifier: Option<string>)

  datatype PaymentMethodData = PaymentMethodData(supportedMethods: seq<string>, data: ApplePayMethodData)

  /** The generic postal address handed to merchants. */
  datatype PaymentAddress = PaymentAddress(
    country: string,
    addressLine: seq<string>,
    region: string,
    city: string,
    dependentLocality: string,
    postalCode: string,
    sortingCode: string,
    languageCode: string,
    organization: string,
    recipient: string,
    phone: string)

  /** The generic payment response resolved by `show()`; its `complete`
      hook is the completion call of the response converter. */
  datatype PaymentResponse = PaymentResponse(
    billingAddress: PaymentAddress,
    methodName: string,
    payerEmail: Option<string>,
    payerName: string,
    payerPhone: Option<string>,
    shippingAddress: PaymentAddress,
    shippingOption: string,
    applePayRaw: Payment)

  // ---------------------------------------------------------------------
  // Vendor (Apple Pay JS) side

  datatype LineItemType = Final | Pending

  datatype LineItem = LineItem(kind: LineItemType, labelText: string, amount: string)

  datatype ShippingMethod = ShippingMethod(labelText: string, detail: string, amount: string, identifier: string)

  /** The contact fields a request can require, in the order the adapter adds them. */
  datatype ContactField = PostalAddress | Name | Email | Phone

  datatype PaymentContact = PaymentContact(
    countryCode: Option<string>,
    addressLines: Option<seq<string>>,
    administrativeArea: Option<string>,
    locality: Option<string>,
    postalCode: Option<string>,
    country: Option<string>,
    givenName: Nullable<string>,
    familyName: Nullable<string>,
    phoneNumber: Option<string>,
    emailAddress: Option<string>)

  /** A vendor error record; only its code is modelled. */
  datatype ApplePayError = ApplePayError(code: string)

  /** The payment card the user picked, as the payment-method event carries it. */
  datatype PaymentMethod = PaymentMethod(displayName: string, network: string, kind: string)

  /** The authorized payment; `token` stands for the opaque payment token. */
  datatype Payment = Payment(token: string, billingContact: Option<PaymentContact>, shippingContact: Option<PaymentContact>)

  /** The session-configuration record handed to the vendor session. A
      contact that is `None` is absent from the record altogether. */
  datatype VendorRequest = VendorRequest(
    countryCode: string,
    currencyCode: string,
    lineItems: seq<LineItem>,
    merchantCapabilities: seq<string>,
    supportedNetworks: seq<string>,
    supportedCountries: Option<seq<string>>,
    total: Option<LineItem>,
    billingContact: Option<PaymentContact>,
    shippingContact: Option<PaymentContact>,
    requiredBillingContactFields: seq<ContactField>,
    requiredShippingContactFields: seq<ContactField>,
    shippingMethods: seq<ShippingMethod>,
    shippingType: string)
}
