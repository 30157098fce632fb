/**
 * CORS origin allow-listing: the allowed origins from the environment or the
 * built-in list, development-only local prefixes, and the response headers
 * built from the decision.
 *
 * Header objects are maps; a later spread or assignment overrides an earlier
 * key, which is map update here.
 */
module Cors {
  import opened Wrappers
  import opened JsText
  import opened RuntimeEnv
  import LineCommon

  const DefaultOrigins: seq<string> := [
    "https://ikemenltd.netlify.app",
    "https://agency.ikemen.ltd",
    "https://taskmateai.net",
    "https://liteweb.plus"]

  /** Origin prefixes accepted only in development. */
  const DevPrefixes: seq<string> := ["http://localhost:", "http://127.0.0.1:", "http://192.168."]

  /** `trim` applied to every element. */
  function TrimAll(parts: seq<string>): (r: seq<string>)
    ensures |r| == |parts|
    ensures forall k :: 0 <= k < |r| ==> r[k] == Trim(parts[k])
  {
    seq(|parts|, k requires 0 <= k < |parts| => Trim(parts[k]))
  }

  /**
   * `getAllowedOrigins`: ALLOWED_ORIGINS split on ',' with each entry
   * trimmed when it is set and non-empty, else the four built-in origins.
   */
  function AllowedOrigins(env: Env): (r: seq<string>)
    ensures !Truthy(env.allowedOrigins) ==> r == DefaultOrigins
    ensures Truthy(env.allowedOrigins) ==>
      var parts := Split(env.allowedOrigins.value, ',');
      |r| == |parts| && forall k :: 0 <= k < |r| ==> r[k] == Trim(parts[k])
  {
    if Truthy(env.allowedOrigins) then TrimAll(Split(env.allowedOrigins.value, ',')) else DefaultOrigins
  }

  /** An origin as it would be written in the variable: no comma, already trimmed. */
  predicate CleanOrigin(o: string) {
    ',' !in o && Trim(o) == o
  }

  /** Configuring a list of clean origins joined by commas allows exactly that list. */
  lemma ConfiguredOriginsRoundTrip(origins: seq<string>, env: Env)
    requires |origins| >= 1 && forall k :: 0 <= k < |origins| ==> CleanOrigin(origins[k])
    requires env.allowedOrigins == Some(Join(origins, ',')) && Join(origins, ',') != ""
    ensures AllowedOrigins(env) == origins
  {
    TrimSplitJoin(origins);
  }

  lemma TrimSplitJoin(origins: seq<string>)
    requires |origins| >= 1
    requires forall k :: 0 <= k < |origins| ==> CleanOrigin(origins[k])
    ensures TrimAll(Split(Join(origins, ','), ',')) == origins
  {
    CommaFree(origins);
    SplitJoin(origins, ',');
    TrimAllClean(origins);
  }

  lemma CommaFree(origins: seq<string>)
    requires forall k :: 0 <= k < |origins| ==> CleanOrigin(origins[k])
    ensures forall k :: 0 <= k < |origins| ==> ',' !in origins[k]
  {
  }

  lemma TrimAllClean(origins: seq<string>)
    requires forall k :: 0 <= k < |origins| ==> CleanOrigin(origins[k])
    ensures TrimAll(origins) == origins
  {
  }

  predicate HasDevPrefix(origin: string) {
    exists k | 0 <= k < |DevPrefixes| :: StartsWith(origin, DevPrefixes[k])
  }

  /**
   * `isOriginAllowed`: never for a falsy origin; a local prefix in
   * development; otherwise exact membership in the allowed list.
   */
  function IsOriginAllowed(env: Env, origin: Option<string>): (ok: bool)
    ensures !Truthy(origin) ==> !ok
    ensures Truthy(origin) ==>
      (ok <==> (IsDevelopment(env) && HasDevPrefix(origin.value)) || origin.value in AllowedOrigins(env))
  {
    if !Truthy(origin) then false
    else if IsDevelopment(env) && HasDevPrefix(origin.value) then true
    else origin.value in AllowedOrigins(env)
  }

  /** Outside development a local origin is allowed only when listed exactly. */
  lemma ProductionIgnoresDevPrefixes(env: Env, origin: string)
    requires !IsDevelopment(env) && origin != ""
    ensures IsOriginAllowed(env, Some(origin)) <==> origin in AllowedOrigins(env)
  {
  }

  /** With the built-in list, an origin differing from a listed one only by a trailing slash is refused. */
  lemma TrailingSlashRefused(env: Env)
    requires !IsDevelopment(env) && !Truthy(env.allowedOrigins)
    ensures !IsOriginAllowed(env, Some("https://taskmateai.net/"))
  {
    assert forall k :: 0 <= k < |DefaultOrigins| ==> DefaultOrigins[k] != "https://taskmateai.net/";
  }

  /** The request's origin: `origin`, else `Origin`, else "". */
  function RequestOrigin(headers: map<string, string>): (r: string)
    ensures LineCommon.HeaderTruthy(headers, "origin") ==> r == headers["origin"]
    ensures !LineCommon.HeaderTruthy(headers, "origin") && LineCommon.HeaderTruthy(headers, "Origin") ==> r == headers["Origin"]
    ensures !LineCommon.HeaderTruthy(headers, "origin") && !LineCommon.HeaderTruthy(headers, "Origin") ==> r == ""
  {
    OrEmpty(OrElse(LineCommon.Header(headers, "origin"), LineCommon.Header(headers, "Origin")))
  }

  /** The security headers every response carries. */
  const SecurityHeaders: map<string, string> := map[
    "Content-Type" := "application/json",
    "X-Content-Type-Options" := "nosniff",
    "X-Frame-Options" := "DENY",
    "X-XSS-Protection" := "1; mode=block"]

  const CorsKeys: set<string> := {
    "Access-Control-Allow-Origin", "Access-Control-Allow-Credentials", "Access-Control-Allow-Methods",
    "Access-Control-Allow-Headers", "Access-Control-Max-Age", "Vary"}

  const AllowMethods: string := "GET, POST, PUT, DELETE, OPTIONS"
  const AllowHeaders: string := "Content-Type, Authorization, X-Agency-Id, X-Requested-With"

  /**
   * `getCorsHeaders`: the security headers overlaid by the caller's; for an
   * allowed origin the CORS headers are then set, echoing the origin.
   */
  function GetCorsHeaders(env: Env, headers: map<string, string>, additional: map<string, string>): (r: map<string, string>)
    ensures var origin := RequestOrigin(headers);
      && (!IsOriginAllowed(env, Some(origin)) ==> r == SecurityHeaders + additional)
      && (IsOriginAllowed(env, Some(origin)) ==>
            && r.Keys == SecurityHeaders.Keys + additional.Keys + CorsKeys
            && r["Access-Control-Allow-Origin"] == origin && origin != ""
            && r["Access-Control-Allow-Credentials"] == "true"
            && r["Access-Control-Allow-Methods"] == AllowMethods
            && r["Access-Control-Allow-Headers"] == AllowHeaders
            && r["Access-Control-Max-Age"] == "86400"
            && r["Vary"] == "Origin")
    ensures forall k :: k in additional && k !in CorsKeys ==> k in r && r[k] == additional[k]
    ensures forall k :: k in SecurityHeaders && k !in additional && k !in CorsKeys ==> k in r && r[k] == SecurityHeaders[k]
  {
    var origin := RequestOrigin(headers);
    var base := SecurityHeaders + additional;
    if IsOriginAllowed(env, Some(origin)) then
      base["Access-Control-Allow-Origin" := origin]
          ["Access-Control-Allow-Credentials" := "true"]
          ["Access-Control-Allow-Methods" := AllowMethods]
          ["Access-Control-Allow-Headers" := AllowHeaders]
          ["Access-Control-Max-Age" := "86400"]
          ["Vary" := "Origin"]
    else base
  }

  /** A refused origin gets no CORS header unless the caller put it there. */
  lemma RefusedOriginGetsNoCorsHeaders(env: Env, headers: map<string, string>)
    requires !IsOriginAllowed(env, Some(RequestOrigin(headers)))
    ensures forall k :: k in CorsKeys ==> k !in GetCorsHeaders(env, headers, map[])
  {
    assert SecurityHeaders + map[] == SecurityHeaders;
  }

  datatype Response = Response(status: int, headers: map<string, string>, body: string)

  /** `handleCorsPreflightRequest`: 200, empty body, the CORS headers of the request. */
  function HandleCorsPreflight(env: Env, headers: map<string, string>): (r: Response)
    ensures r.status == 200 && r.body == ""
    ensures ("Access-Control-Allow-Origin" in r.headers) <==> IsOriginAllowed(env, Some(RequestOrigin(headers)))
  {
    RefusedOriginPreflight(env, headers);
    Response(200, GetCorsHeaders(env, headers, map[]), "")
  }

  lemma RefusedOriginPreflight(env: Env, headers: map<string, string>)
    ensures !IsOriginAllowed(env, Some(RequestOrigin(headers))) ==>
      "Access-Control-Allow-Origin" !in GetCorsHeaders(env, headers, map[])
  {
    assert SecurityHeaders + map[] == SecurityHeaders;
  }

  /** `createCorsErrorResponse`: 403, with the message as details only in development. */
  datatype CorsError = CorsError(status: int, error: string, details: Option<string>)

  function CreateCorsErrorResponse(env: Env, message: Option<string>): (r: CorsError)
    ensures r.status == 403
    ensures r.details.Some? <==> IsDevelopment(env)
    ensures r.details.Some? && message.Some? ==> r.details.value == message.value
    ensures IsDevelopment(env) && message.None? ==> r.details == Some("CORS policy: Origin not allowed")
    ensures r.error == "アクセスが拒否されました"
  {
    var m := message.GetOr("CORS policy: Origin not allowed");
    CorsError(403, "アクセスが拒否されました", if IsDevelopment(env) then Some(m) else None)
  }

  /** Outside development the refusal never depends on the message: its text is hidden. */
  lemma ProductionHidesCorsDetails(env: Env, m1: Option<string>, m2: Option<string>)
    requires !IsDevelopment(env)
    ensures CreateCorsErrorResponse(env, m1) == CreateCorsErrorResponse(env, m2)
    ensures CreateCorsErrorResponse(env, m1).details.None?
  {
  }
}
