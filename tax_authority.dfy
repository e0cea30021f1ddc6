/**
 * `lib/tax_authority.ts`: the VAT (מע"מ) and withholding-tax (ניכוי במקור)
 * status of a business. The token request and the two status requests
 * are inputs: each is what the HTTP exchange gave back. The timestamp
 * `lastVerified` is the parameter `now`.
 */
module TaxAuthority {
  import opened Wrappers

  /** How an HTTP exchange ended: no answer, or a status and a body (absent when it is not JSON). */
  datatype Fetched<T> = NetworkError | Response(status: int, body: Option<T>)

  predicate Ok<T>(f: Fetched<T>)
  {
    f.Response? && 200 <= f.status < 300
  }

  /** The answer of `maam/status`; a missing `isRegistered` or `isActive` reads as `false`. */
  datatype MaamStatus = MaamStatus(
    isRegistered: bool, businessName: Option<string>, maamNumber: Option<string>,
    registrationDate: Option<string>, isActive: bool)

  datatype NikuiStatus = NikuiStatus(isRegistered: bool, registrationDate: Option<string>)

  datatype TaxStatus = TaxStatus(
    hpNumber: string, businessName: string,
    isMaamRegistered: bool, isMaamExempt: bool, maamNumber: Option<string>, maamRegistrationDate: Option<string>,
    hasNikuiBamakor: bool, nikuiRegistrationDate: Option<string>,
    isActive: bool, lastVerified: string, source: string)

  /**
   * `getTaxAuthorityToken`: nothing without both credentials, and nothing
   * when the exchange fails or answers with an error status; otherwise the
   * `access_token` of the answer.
   */
  function TaxAuthorityToken(clientId: Option<string>, clientSecret: Option<string>, reply: Fetched<Option<string>>): (token: Option<string>)
    ensures !Truthy(clientId) || !Truthy(clientSecret) ==> token.None?
    ensures token.Some? ==> Ok(reply) && reply.body == Some(token)
    ensures Truthy(clientId) && Truthy(clientSecret) && Ok(reply) && reply.body.Some? ==> token == reply.body.value
  {
    if !Truthy(clientId) || !Truthy(clientSecret) then None
    else if !Ok(reply) || reply.body.None? then None
    else reply.body.value
  }

  /** `queryMaamStatus`: a 404 is an unregistered, inactive business; any other failure gives nothing. */
  function QueryMaamStatus(reply: Fetched<MaamStatus>): (r: Option<MaamStatus>)
    ensures reply.Response? && reply.status == 404 ==> r == Some(MaamStatus(false, None, None, None, false))
    ensures r.Some? && !(reply.Response? && reply.status == 404) ==> Ok(reply) && reply.body == r
    ensures Ok(reply) && reply.body.Some? ==> r == reply.body
  {
    match reply
    case NetworkError => None
    case Response(status, body) =>
      if status == 404 then Some(MaamStatus(false, None, None, None, false))
      else if !Ok(reply) then None
      else body
  }

  /** `queryNikuiStatus`: the same rules for the withholding-tax register. */
  function QueryNikuiStatus(reply: Fetched<NikuiStatus>): (r: Option<NikuiStatus>)
    ensures reply.Response? && reply.status == 404 ==> r == Some(NikuiStatus(false, None))
    ensures r.Some? && !(reply.Response? && reply.status == 404) ==> Ok(reply) && reply.body == r
    ensures Ok(reply) && reply.body.Some? ==> r == reply.body
  {
    match reply
    case NetworkError => None
    case Response(status, body) =>
      if status == 404 then Some(NikuiStatus(false, None))
      else if !Ok(reply) then None
      else body
  }

  /** `getTaxStatusFallback`: unknown VAT state, no withholding, active. */
  function TaxStatusFallback(hpNumber: string, now: string): TaxStatus
  {
    TaxStatus(hpNumber, "", false, false, None, None, false, None, true, now, "tax.gov.il")
  }

  /** The record built from the two answers (`?.` and `||` on an absent answer give the defaults). */
  function Assemble(hpNumber: string, maam: Option<MaamStatus>, nikui: Option<NikuiStatus>, now: string): TaxStatus
  {
    var registered := maam.Some? && maam.value.isRegistered;
    TaxStatus(
      hpNumber,
      if maam.Some? then OrElse(maam.value.businessName, "") else "",
      registered, !registered,
      if maam.Some? then maam.value.maamNumber else None,
      if maam.Some? then maam.value.registrationDate else None,
      nikui.Some? && nikui.value.isRegistered,
      if nikui.Some? then nikui.value.registrationDate else None,
      maam.Some? && maam.value.isActive,
      now, "tax.gov.il")
  }

  /** `checkTaxStatus`: the fallback without a token, otherwise both registers are asked. */
  function CheckTaxStatus(hpNumber: string, token: Option<string>, maamReply: Fetched<MaamStatus>,
                          nikuiReply: Fetched<NikuiStatus>, now: string): (r: TaxStatus)
    ensures r.hpNumber == hpNumber && r.lastVerified == now && r.source == "tax.gov.il"
    ensures !Truthy(token) ==> r == TaxStatusFallback(hpNumber, now)
    ensures Truthy(token) ==> r == Assemble(hpNumber, QueryMaamStatus(maamReply), QueryNikuiStatus(nikuiReply), now)
  {
    if !Truthy(token) then TaxStatusFallback(hpNumber, now)
    else Assemble(hpNumber, QueryMaamStatus(maamReply), QueryNikuiStatus(nikuiReply), now)
  }

  /** Without a token the business is neither registered nor exempt, has no withholding, and is active. */
  lemma FallbackWithoutToken(hpNumber: string, token: Option<string>, maamReply: Fetched<MaamStatus>,
                             nikuiReply: Fetched<NikuiStatus>, now: string)
    requires !Truthy(token)
    ensures var r := CheckTaxStatus(hpNumber, token, maamReply, nikuiReply, now);
      !r.isMaamRegistered && !r.isMaamExempt && !r.hasNikuiBamakor && r.isActive && r.businessName == ""
  {
  }

  /** With a token, the business is VAT-exempt exactly when it is not registered, whatever the answers were. */
  lemma ExemptIsNotRegistered(hpNumber: string, token: Option<string>, maamReply: Fetched<MaamStatus>,
                              nikuiReply: Fetched<NikuiStatus>, now: string)
    requires Truthy(token)
    ensures var r := CheckTaxStatus(hpNumber, token, maamReply, nikuiReply, now);
      r.isMaamExempt <==> !r.isMaamRegistered
    ensures maamReply.NetworkError? ==> CheckTaxStatus(hpNumber, token, maamReply, nikuiReply, now).isMaamExempt
  {
  }

  /** A 404 from either register reads as not registered there. */
  lemma NotFoundIsNotRegistered(hpNumber: string, token: Option<string>, maamReply: Fetched<MaamStatus>,
                                nikuiReply: Fetched<NikuiStatus>, now: string)
    requires Truthy(token)
    ensures maamReply.Response? && maamReply.status == 404 ==>
      var r := CheckTaxStatus(hpNumber, token, maamReply, nikuiReply, now);
      !r.isMaamRegistered && r.isMaamExempt && !r.isActive && r.maamNumber.None?
    ensures nikuiReply.Response? && nikuiReply.status == 404 ==>
      !CheckTaxStatus(hpNumber, token, maamReply, nikuiReply, now).hasNikuiBamakor
  {
  }

  /** Withholding tax is reported only when the register answered successfully that the business is registered. */
  lemma NikuiOnlyWhenReported(hpNumber: string, token: Option<string>, maamReply: Fetched<MaamStatus>,
                              nikuiReply: Fetched<NikuiStatus>, now: string)
    ensures CheckTaxStatus(hpNumber, token, maamReply, nikuiReply, now).hasNikuiBamakor <==>
      Truthy(token) && Ok(nikuiReply) && nikuiReply.body.Some? && nikuiReply.body.value.isRegistered
  {
  }

  const ExemptionThreshold2025: real := 100584.0

  /** `qualifiesForMaamExemption`: an annual turnover below the 2025 threshold. */
  predicate QualifiesForMaamExemption(annualTurnover: real)
  {
    annualTurnover < ExemptionThreshold2025
  }

  /** The threshold itself does not qualify, anything below it does, and every lower turnover qualifies too. */
  lemma ExemptionThreshold(t: real, lower: real)
    ensures QualifiesForMaamExemption(100583.99) && !QualifiesForMaamExemption(100584.0)
    ensures QualifiesForMaamExemption(t) && lower <= t ==> QualifiesForMaamExemption(lower)
  {
  }
}
