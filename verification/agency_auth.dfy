/**
 * The bearer-token gate the agency endpoints share: a `Bearer ` header whose
 * token verifies, and for the invoice endpoints an `x-agency-id` header that
 * matches the token's agency.
 *
 * JWT verification is the parameter `verify`, whose result distinguishes a
 * malformed or wrongly signed token (`JsonWebTokenError`) from the library's
 * other errors (an expired token, one not yet valid).
 */
module AgencyAuth {
  import opened Wrappers
  import opened JsText

  /** What verifying a token gives: its agency and user claims, or which kind of error was thrown. */
  datatype Jwt = Decoded(agencyId: Option<string>, userId: Option<string>) | Malformed | OtherJwtError

  /** The token after `Bearer `, when the header is present and has that prefix. */
  function BearerToken(authorization: Option<string>): (r: Option<string>)
    ensures r.Some? <==> Truthy(authorization) && StartsWith(authorization.value, "Bearer ")
    ensures r.Some? ==> authorization.value == "Bearer " + r.value
  {
    if Truthy(authorization) && StartsWith(authorization.value, "Bearer ") then
      var a := authorization.value;
      assert a == a[..7] + a[7..];
      Some(Substring(a, 7, |a|))
    else None
  }

  /** The gate's verdict: the caller's agency, or the status to answer with. */
  datatype Gate = Pass(agencyId: string) | Reject(status: int)

  /**
   * The invoice endpoints' gate: 401 without a bearer token or for a
   * malformed one, 500 for the library's other errors, 403 when the
   * `x-agency-id` header is missing or differs from the token's agency.
   */
  function CheckAgencyHeader(authorization: Option<string>, agencyHeader: Option<string>,
                             verify: string -> Jwt): (g: Gate)
    ensures BearerToken(authorization).None? ==> g == Reject(401)
    ensures g.Pass? ==> && BearerToken(authorization).Some?
                        && agencyHeader == Some(g.agencyId) && g.agencyId != ""
                        && verify(BearerToken(authorization).value).Decoded?
                        && verify(BearerToken(authorization).value).agencyId == Some(g.agencyId)
    ensures g.Reject? ==> g.status in {401, 403, 500}
    ensures BearerToken(authorization).Some? && verify(BearerToken(authorization).value).Decoded? ==>
      (g.Pass? <==> Truthy(agencyHeader) && verify(BearerToken(authorization).value).agencyId == agencyHeader)
  {
    match BearerToken(authorization)
    case None => Reject(401)
    case Some(token) =>
      match verify(token)
      case Malformed => Reject(401)
      case OtherJwtError => Reject(500)
      case Decoded(claim, _) =>
        if !Truthy(agencyHeader) || claim != agencyHeader then Reject(403) else Pass(agencyHeader.value)
  }

  /** A valid token for one agency never opens another agency's data. */
  lemma TokenBindsAgency(authorization: Option<string>, other: string, verify: string -> Jwt)
    requires BearerToken(authorization).Some?
    requires verify(BearerToken(authorization).value).Decoded?
    requires verify(BearerToken(authorization).value).agencyId != Some(other)
    ensures CheckAgencyHeader(authorization, Some(other), verify) != Pass(other)
  {
  }
}
