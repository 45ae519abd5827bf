/**
 Protocol-version negotiation: the adapter asks the vendor once, at
 construction, which Apple Pay JS versions it supports and keeps the
 highest of 3 and 2 it reports, falling back to 1.
 */
module ProtocolNegotiator {

  /** The negotiated Apple Pay JS version. */
  type Version = v: int | 1 <= v <= 3 witness 1

  /** Picks the version from the vendor's `supportsVersion` probe, which is
      passed in rather than read from the browser. */
  function Negotiate(supportsVersion: int -> bool): (v: Version)
    ensures v == 1 || supportsVersion(v)
    ensures v < 3 ==> !supportsVersion(3)
    ensures v < 2 ==> !supportsVersion(2)
  {
    if supportsVersion(3) then 3
    else if supportsVersion(2) then 2
    else 1
  }

  /** The negotiated version is the highest one the probe confirms (capped at
      3); version 1 is assumed without asking. */
  lemma NegotiateIsHighestSupported(supportsVersion: int -> bool, v: Version)
    requires v == 1 || supportsVersion(v)
    ensures v <= Negotiate(supportsVersion)
  {
  }
}
