/**
 * Creating tracking links, by the two endpoints that do it: the agency's own
 * (`agency-create-link`), behind its bearer token and `x-agency-id` header,
 * and the older form-driven one (`create-tracking-link`), which takes the
 * agency from the request body.
 *
 * `Math.random()` is the parameter `random`: the n-th value drawn (as a
 * number for the alphanumeric codes, as its base-36 text for the agency
 * codes). `taken(code)` says whether the lookup of `code` among the existing
 * links returned a row. The database's own answer to the insert is the
 * boolean `inserted`.
 */
module TrackingLinks {
  import opened Wrappers
  import opened JsText
  import opened AgencyAuth

  /** What a handler answers: a plain status, the CSRF refusal, or the stored row (status 200). */
  datatype Outcome<T> = Answered(status: int) | CsrfRefused | Stored(row: T)

  // ---------------------------------------------------------------------------
  // The agency's token: `authorization?.replace('Bearer ', '')`
  // ---------------------------------------------------------------------------

  /** The first offset at or after `i` where `t` occurs in `s`. */
  function FirstOccurrenceFrom(s: string, t: string, i: nat): (r: Option<nat>)
    ensures r.Some? ==> && i <= r.value && OccursAt(s, t, r.value)
                        && forall j :: i <= j < r.value ==> !OccursAt(s, t, j)
    ensures r.None? ==> forall j :: i <= j ==> !OccursAt(s, t, j)
    decreases |s| - i
  {
    if i + |t| > |s| then None
    else if OccursAt(s, t, i) then Some(i)
    else FirstOccurrenceFrom(s, t, i + 1)
  }

  /** `s.replace(t, u)` with a string pattern: only the first occurrence is replaced. */
  function ReplaceFirst(s: string, t: string, u: string): (r: string)
    ensures !Contains(s, t) ==> r == s
    ensures forall k :: (&& OccursAt(s, t, k)
                         && forall j :: 0 <= j < k ==> !OccursAt(s, t, j)) ==>
      r == s[..k] + u + s[k + |t|..]
  {
    match FirstOccurrenceFrom(s, t, 0)
    case None => s
    case Some(k) =>
      s[..k] + u + s[k + |t|..]
  }

  /** The token this endpoint verifies: the header with its first `Bearer ` removed. */
  function Token(authorization: Option<string>): (r: Option<string>)
    ensures r.None? <==> authorization.None?
    ensures r.Some? ==> |r.value| <= |authorization.value|
  {
    match authorization
    case None => None
    case Some(a) => Some(ReplaceFirst(a, "Bearer ", ""))
  }

  /** On a well-formed header the token is the one the other agency endpoints read. */
  lemma TokenAgreesWithBearer(authorization: Option<string>)
    requires BearerToken(authorization).Some?
    ensures Token(authorization) == BearerToken(authorization)
  {
    var a := authorization.value;
    assert OccursAt(a, "Bearer ", 0);
    assert forall j :: 0 <= j < 0 ==> !OccursAt(a, "Bearer ", j);
    assert ReplaceFirst(a, "Bearer ", "") == a[..0] + "" + a[7..] == a[7..];
    assert BearerToken(authorization).value == a[7..];
  }

  /** A header without `Bearer ` anywhere is taken whole as the token, where the other endpoints answer 401. */
  lemma BareTokenAccepted(a: string)
    requires !Contains(a, "Bearer ")
    ensures Token(Some(a)) == Some(a)
    ensures BearerToken(Some(a)).None?
  {
    if StartsWith(a, "Bearer ") {
      assert OccursAt(a, "Bearer ", 0);
    }
  }

  // ---------------------------------------------------------------------------
  // The agency's tracking codes: two base-36 fragments of random numbers
  // ---------------------------------------------------------------------------

  /** The text `Math.random().toString(36)` gives: `0` or `0.` and base-36 digits. */
  predicate Base36Fraction(t: string) {
    && 1 <= |t| && t[0] == '0'
    && (|t| == 1 || t[1] == '.')
    && forall k :: 2 <= k < |t| ==> IsDigitOf(t[k], 36)
  }

  /** `Math.random().toString(36).substring(2, 8)` twice. */
  function AgencyCode(a: string, b: string): (r: string)
    ensures |r| <= 12
    ensures Base36Fraction(a) && Base36Fraction(b) ==> forall k :: 0 <= k < |r| ==> IsDigitOf(r[k], 36)
    ensures |a| >= 8 && |b| >= 8 ==> r == a[2..8] + b[2..8]
  {
    var x := Substring(a, 2, 8);
    var y := Substring(b, 2, 8);
    assert Base36Fraction(a) ==> forall k :: 0 <= k < |x| ==> IsDigitOf(x[k], 36) by {
      if Base36Fraction(a) && |a| > 2 {
        assert x == a[2..if |a| < 8 then |a| else 8];
      }
    }
    assert Base36Fraction(b) ==> forall k :: 0 <= k < |y| ==> IsDigitOf(y[k], 36) by {
      if Base36Fraction(b) && |b| > 2 {
        assert y == b[2..if |b| < 8 then |b| else 8];
      }
    }
    x + y
  }

  /** The code tried on attempt `i` (counting from 0) uses the texts of draws 2i and 2i+1. */
  function Candidate(random: nat -> string, i: nat): string {
    AgencyCode(random(2 * i), random(2 * i + 1))
  }

  const MaxAttempts: nat := 5

  /** The first attempt from `i` whose code is free, if any of the five is. */
  function FreeAttemptFrom(random: nat -> string, taken: string -> bool, i: nat): (r: Option<nat>)
    requires i <= MaxAttempts
    ensures r.Some? ==> && i <= r.value < MaxAttempts && !taken(Candidate(random, r.value))
                        && forall j :: i <= j < r.value ==> taken(Candidate(random, j))
    ensures r.None? ==> forall j :: i <= j < MaxAttempts ==> taken(Candidate(random, j))
    decreases MaxAttempts - i
  {
    if i == MaxAttempts then None
    else if !taken(Candidate(random, i)) then Some(i)
    else FreeAttemptFrom(random, taken, i + 1)
  }

  /** The code the endpoint settles on, or None when all five attempts were taken. */
  function FreeCode(random: nat -> string, taken: string -> bool): (r: Option<string>)
    ensures r.Some? ==> !taken(r.value) && |r.value| <= 12
    ensures r.None? <==> forall j :: 0 <= j < MaxAttempts ==> taken(Candidate(random, j))
  {
    match FreeAttemptFrom(random, taken, 0)
    case None => None
    case Some(i) => Some(Candidate(random, i))
  }

  /**
   * The retry loop as written: draw, look up, stop at the first free code or
   * after five attempts. It settles on the same code as `FreeCode`.
   */
  method UniqueCode(random: nat -> string, taken: string -> bool) returns (code: string, isUnique: bool)
    ensures isUnique <==> FreeCode(random, taken).Some?
    ensures isUnique ==> code == FreeCode(random, taken).value && !taken(code)
    ensures !isUnique ==> forall j :: 0 <= j < MaxAttempts ==> taken(Candidate(random, j))
  {
    isUnique := false;
    code := "";
    var attempts := 0;
    while !isUnique && attempts < MaxAttempts
      invariant 0 <= attempts <= MaxAttempts
      invariant !isUnique ==> FreeAttemptFrom(random, taken, attempts) == FreeAttemptFrom(random, taken, 0)
      invariant isUnique ==> && 1 <= attempts && code == Candidate(random, attempts - 1)
                             && FreeAttemptFrom(random, taken, 0) == Some(attempts - 1)
    {
      code := Candidate(random, attempts);
      if !taken(code) {
        isUnique := true;
      }
      attempts := attempts + 1;
    }
  }

  // ---------------------------------------------------------------------------
  // agency-create-link
  // ---------------------------------------------------------------------------

  /** The fields of the JSON body the agency endpoint reads. */
  datatype AgencyLinkBody = AgencyLinkBody(name: Option<string>, serviceId: Option<string>,
                                           utmSource: Option<string>, utmMedium: Option<string>,
                                           utmCampaign: Option<string>, utmTerm: Option<string>,
                                           utmContent: Option<string>)

  /** The service row the agency endpoint reads, when `.single()` finds it. */
  datatype ServiceUrls = ServiceUrls(lineOfficialUrl: Option<string>, appRedirectUrl: Option<string>, status: string)

  /** The `agency_tracking_links` row the agency endpoint inserts. */
  datatype AgencyLink = AgencyLink(agencyId: string, createdBy: Option<string>, trackingCode: string,
                                   name: string, serviceId: Option<string>,
                                   utmSource: Option<string>, utmMedium: Option<string>,
                                   utmCampaign: Option<string>, utmTerm: Option<string>,
                                   utmContent: Option<string>,
                                   lineFriendUrl: Option<string>, destinationUrl: Option<string>,
                                   isActive: bool, visitCount: nat, conversionCount: nat)

  /** The placeholder left in an unconfigured `LINE_OFFICIAL_URL`. */
  const PlaceholderLineId := "@your-line-id"

  /** The LINE URLs a link gets: the service's, or the environment's for links without a service. */
  datatype Urls = Urls(lineFriendUrl: Option<string>, destinationUrl: Option<string>)

  /**
   * Where the link points: with a service id, that service (400 when it is
   * missing or not active), the app redirect URL winning over the LINE URL;
   * without one, `LINE_OFFICIAL_URL` (500 when unset or still the placeholder).
   */
  function LinkUrls(serviceId: Option<string>, service: Option<ServiceUrls>, envLineUrl: Option<string>): (r: Outcome<Urls>)
    ensures r.Stored? || r == Answered(400) || r == Answered(500)
    ensures Truthy(serviceId) && !r.Stored? ==> r == Answered(400)
    ensures !Truthy(serviceId) && !r.Stored? ==> r == Answered(500)
    ensures Truthy(serviceId) ==> (r.Stored? <==> service.Some? && service.value.status == "active")
    ensures Truthy(serviceId) && r.Stored? ==>
      r.row == Urls(service.value.lineOfficialUrl, OrElse(service.value.appRedirectUrl, service.value.lineOfficialUrl))
    ensures !Truthy(serviceId) ==> (r.Stored? <==> Truthy(envLineUrl) && !Contains(envLineUrl.value, PlaceholderLineId))
    ensures !Truthy(serviceId) && r.Stored? ==> r.row == Urls(envLineUrl, envLineUrl)
  {
    if Truthy(serviceId) then
      if service.None? || service.value.status != "active" then Answered(400)
      else Stored(Urls(service.value.lineOfficialUrl, OrElse(service.value.appRedirectUrl, service.value.lineOfficialUrl)))
    else if !Truthy(envLineUrl) || Contains(envLineUrl.value, PlaceholderLineId) then Answered(500)
    else Stored(Urls(envLineUrl, envLineUrl))
  }

  /** The request passed the CSRF, token and agency checks of the agency endpoint. */
  predicate AgencyAdmitted(httpMethod: string, csrfValid: bool, authorization: Option<string>,
                           agencyHeader: Option<string>, verify: string -> Jwt) {
    && httpMethod == "POST" && csrfValid && Truthy(Token(authorization)) && Truthy(agencyHeader)
    && verify(Token(authorization).value).Decoded?
    && verify(Token(authorization).value).agencyId == agencyHeader
  }

  /**
   * The handler. `csrfValid` is the verdict of the CSRF check, whose module
   * is not part of this model; `body` is None when the body is not JSON;
   * `service` is the row of the body's service id.
   */
  function AgencyCreateLink(httpMethod: string, csrfValid: bool, authorization: Option<string>,
                            agencyHeader: Option<string>, verify: string -> Jwt,
                            body: Option<AgencyLinkBody>, service: Option<ServiceUrls>,
                            envLineUrl: Option<string>, random: nat -> string,
                            taken: string -> bool, inserted: bool): (r: Outcome<AgencyLink>)
    ensures httpMethod == "OPTIONS" ==> r == Answered(200)
    ensures httpMethod != "OPTIONS" && httpMethod != "POST" ==> r == Answered(405)
    ensures httpMethod == "POST" ==> (r == CsrfRefused <==> !csrfValid)
    ensures httpMethod == "POST" && csrfValid && (!Truthy(Token(authorization)) || !Truthy(agencyHeader)) ==>
      r == Answered(401)
    ensures (&& httpMethod == "POST" && csrfValid && Truthy(Token(authorization)) && Truthy(agencyHeader)
             && !verify(Token(authorization).value).Decoded?) ==> r == Answered(401)
    ensures (&& httpMethod == "POST" && csrfValid && Truthy(Token(authorization)) && Truthy(agencyHeader)
             && verify(Token(authorization).value).Decoded?
             && verify(Token(authorization).value).agencyId != agencyHeader) ==> r == Answered(403)
    ensures AgencyAdmitted(httpMethod, csrfValid, authorization, agencyHeader, verify) ==>
      && (body.None? ==> r == Answered(500))
      && (body.Some? ==>
            var urls := LinkUrls(body.value.serviceId, service, envLineUrl);
            && (urls.Answered? ==> r == Answered(urls.status))
            && (urls.Stored? && !Truthy(body.value.name) ==> r == Answered(400))
            && (urls.Stored? && Truthy(body.value.name) && FreeCode(random, taken).None? ==> r == Answered(500))
            && (urls.Stored? && Truthy(body.value.name) && FreeCode(random, taken).Some? ==>
                  (r.Stored? <==> inserted) && (!inserted ==> r == Answered(500))))
    ensures r.Stored? <==>
      && AgencyAdmitted(httpMethod, csrfValid, authorization, agencyHeader, verify)
      && body.Some? && LinkUrls(body.value.serviceId, service, envLineUrl).Stored?
      && Truthy(body.value.name) && FreeCode(random, taken).Some? && inserted
    ensures r.Stored? ==>
      && httpMethod == "POST" && csrfValid && Truthy(Token(authorization)) && Truthy(agencyHeader)
      && verify(Token(authorization).value).Decoded?
      && verify(Token(authorization).value).agencyId == agencyHeader
      && body.Some? && Truthy(body.value.name) && inserted
      && r.row.agencyId == agencyHeader.value
      && r.row.createdBy == verify(Token(authorization).value).userId
      && r.row.name == body.value.name.value
      && r.row.serviceId == (if Truthy(body.value.serviceId) then body.value.serviceId else None)
      && r.row.utmSource == body.value.utmSource && r.row.utmMedium == body.value.utmMedium
      && r.row.utmCampaign == body.value.utmCampaign && r.row.utmTerm == body.value.utmTerm
      && r.row.utmContent == body.value.utmContent
      && LinkUrls(body.value.serviceId, service, envLineUrl) == Stored(Urls(r.row.lineFriendUrl, r.row.destinationUrl))
      && FreeCode(random, taken) == Some(r.row.trackingCode) && !taken(r.row.trackingCode)
      && r.row.isActive && r.row.visitCount == 0 && r.row.conversionCount == 0
    ensures r.Answered? ==> r.status in {200, 400, 401, 403, 405, 500}
  {
    if httpMethod == "OPTIONS" then Answered(200)
    else if httpMethod != "POST" then Answered(405)
    else if !csrfValid then CsrfRefused
    else
      var token := Token(authorization);
      if !Truthy(token) || !Truthy(agencyHeader) then Answered(401)
      else match verify(token.value)
        case Malformed => Answered(401)
        case OtherJwtError => Answered(401)
        case Decoded(claim, userId) =>
          if claim != agencyHeader then Answered(403)
          else if body.None? then Answered(500)
          else
            var b := body.value;
            match LinkUrls(b.serviceId, service, envLineUrl)
            case Answered(status) => Answered(status)
            case CsrfRefused => Answered(500)
            case Stored(urls) =>
              if !Truthy(b.name) then Answered(400)
              else match FreeCode(random, taken)
                case None => Answered(500)
                case Some(code) =>
                  if !inserted then Answered(500)
                  else
                    Stored(AgencyLink(agencyHeader.value, userId, code, b.name.value,
                                      if Truthy(b.serviceId) then b.serviceId else None,
                                      b.utmSource, b.utmMedium, b.utmCampaign, b.utmTerm, b.utmContent,
                                      urls.lineFriendUrl, OrElse(urls.destinationUrl, urls.lineFriendUrl),
                                      true, 0, 0))
  }

  /** A link stored for a service points at its app redirect URL when it has one, else at its LINE URL. */
  lemma ServiceLinkDestination(httpMethod: string, csrfValid: bool, authorization: Option<string>,
                               agencyHeader: Option<string>, verify: string -> Jwt,
                               body: Option<AgencyLinkBody>, service: Option<ServiceUrls>,
                               envLineUrl: Option<string>, random: nat -> string,
                               taken: string -> bool, inserted: bool)
    requires AgencyCreateLink(httpMethod, csrfValid, authorization, agencyHeader, verify, body, service,
                              envLineUrl, random, taken, inserted).Stored?
    requires Truthy(body.value.serviceId)
    ensures var link := AgencyCreateLink(httpMethod, csrfValid, authorization, agencyHeader, verify, body,
                                         service, envLineUrl, random, taken, inserted).row;
      && service.Some? && service.value.status == "active"
      && link.lineFriendUrl == service.value.lineOfficialUrl
      && (Truthy(service.value.appRedirectUrl) ==> link.destinationUrl == service.value.appRedirectUrl)
      && (!Truthy(service.value.appRedirectUrl) ==> link.destinationUrl == service.value.lineOfficialUrl)
  {
  }

  /**
   * The configuration check comes before the name check: without a service
   * id and with `LINE_OFFICIAL_URL` unset, a nameless request is told 500.
   */
  lemma ConfigurationCheckedBeforeName(authorization: Option<string>, agencyHeader: Option<string>,
                                       verify: string -> Jwt, b: AgencyLinkBody, service: Option<ServiceUrls>,
                                       random: nat -> string, taken: string -> bool, inserted: bool)
    requires Truthy(Token(authorization)) && Truthy(agencyHeader)
    requires verify(Token(authorization).value).Decoded?
    requires verify(Token(authorization).value).agencyId == agencyHeader
    requires !Truthy(b.serviceId) && !Truthy(b.name)
    ensures AgencyCreateLink("POST", true, authorization, agencyHeader, verify, Some(b), service,
                             None, random, taken, inserted) == Answered(500)
  {
  }

  /** When all five codes drawn are taken, the request fails with 500 and nothing is stored. */
  lemma ExhaustedCodesFail(authorization: Option<string>, agencyHeader: Option<string>,
                           verify: string -> Jwt, b: AgencyLinkBody, service: Option<ServiceUrls>,
                           envLineUrl: Option<string>, random: nat -> string, taken: string -> bool, inserted: bool)
    requires Truthy(Token(authorization)) && Truthy(agencyHeader)
    requires verify(Token(authorization).value).Decoded?
    requires verify(Token(authorization).value).agencyId == agencyHeader
    requires LinkUrls(b.serviceId, service, envLineUrl).Stored? && Truthy(b.name)
    requires forall j :: 0 <= j < MaxAttempts ==> taken(Candidate(random, j))
    ensures AgencyCreateLink("POST", true, authorization, agencyHeader, verify, Some(b), service,
                             envLineUrl, random, taken, inserted) == Answered(500)
  {
  }

  // ---------------------------------------------------------------------------
  // create-tracking-link: eight characters of a 62-letter alphabet
  // ---------------------------------------------------------------------------

  /** `A`-`Z`, then `a`-`z`, then `0`-`9`. */
  function AlphabetChar(i: nat): (c: char)
    requires i < 62
  {
    if i < 26 then ('A' as int + i) as char
    else if i < 52 then ('a' as int + (i - 26)) as char
    else ('0' as int + (i - 52)) as char
  }

  /** The 62 characters `generateTrackingCode` picks from, in order. */
  function Alphabet(): (r: string)
    ensures |r| == 62
    ensures forall i :: 0 <= i < 62 ==> r[i] == AlphabetChar(i)
  {
    seq(62, i requires 0 <= i < 62 => AlphabetChar(i))
  }

  predicate IsAlphanumeric(c: char) {
    ('A' <= c <= 'Z') || ('a' <= c <= 'z') || ('0' <= c <= '9')
  }

  /** `s.charAt(i)`: the character at `i`, or the empty string outside the string. */
  function CharAt(s: string, i: int): (r: string)
    ensures |r| <= 1
    ensures 0 <= i < |s| <==> |r| == 1
    ensures 0 <= i < |s| ==> r[0] == s[i]
  {
    if 0 <= i < |s| then [s[i]] else ""
  }

  /** The character a draw `x` picks: `characters.charAt(Math.floor(x * 62))`. */
  function PickChar(x: real): (r: string)
    ensures 0.0 <= x < 1.0 ==> |r| == 1 && IsAlphanumeric(r[0])
  {
    var i := (x * 62.0).Floor;
    assert 0.0 <= x < 1.0 ==> 0 <= i < 62;
    CharAt(Alphabet(), i)
  }

  /** `Math.random()` keeps its promise on draws `first` to `first + n - 1`. */
  predicate UnitDraws(random: nat -> real, first: nat, n: nat) {
    forall i :: first <= i < first + n ==> 0.0 <= random(i) < 1.0
  }

  /** The characters picked by the `n` draws from `first` on, in order. */
  function Picks(random: nat -> real, first: nat, n: nat): (r: string)
    ensures |r| <= n
    ensures UnitDraws(random, first, n) ==> |r| == n && forall k :: 0 <= k < |r| ==> IsAlphanumeric(r[k])
  {
    if n == 0 then ""
    else Picks(random, first, n - 1) + PickChar(random(first + n - 1))
  }

  const CodeLength: nat := 8

  /** `generateTrackingCode()` on the eight draws from `first`. */
  function AlphanumericCode(random: nat -> real, first: nat): string {
    Picks(random, first, CodeLength)
  }

  /** The loop as written, appending one picked character per turn. */
  method GenerateTrackingCode(random: nat -> real, first: nat) returns (result: string)
    ensures result == AlphanumericCode(random, first)
    ensures |result| <= CodeLength
    ensures UnitDraws(random, first, CodeLength) ==>
      |result| == CodeLength && forall k :: 0 <= k < |result| ==> IsAlphanumeric(result[k])
  {
    result := "";
    var i := 0;
    while i < CodeLength
      invariant 0 <= i <= CodeLength
      invariant result == Picks(random, first, i)
    {
      result := result + PickChar(random(first + i));
      i := i + 1;
    }
  }

  /** The fields of the JSON body the form endpoint reads. */
  datatype TrackingBody = TrackingBody(name: Option<string>, serviceId: Option<string>, agencyId: Option<string>,
                                       utmSource: Option<string>, utmMedium: Option<string>,
                                       utmCampaign: Option<string>)

  /** The active service with the body's id, when `.single()` finds it. */
  datatype ActiveService = ActiveService(id: string, name: string, lineOfficialUrl: Option<string>)

  /** The `agency_tracking_links` row the form endpoint inserts. */
  datatype TrackingRow = TrackingRow(agencyId: string, serviceId: string, name: string, trackingCode: string,
                                     utmSource: Option<string>, utmMedium: Option<string>,
                                     utmCampaign: Option<string>, destinationUrl: Option<string>,
                                     isActive: bool, visitCount: nat)

  /** `s?.trim() || null`. */
  function TrimOrNull(s: Option<string>): (r: Option<string>)
    ensures r.None? <==> s.None? || Trim(s.value) == ""
    ensures r.Some? ==> r.value == Trim(s.value) && !IsSpace(r.value[0]) && !IsSpace(r.value[|r.value| - 1])
  {
    if s.Some? && Trim(s.value) != "" then Some(Trim(s.value)) else None
  }

  /**
   * The code the form endpoint stores: the first code drawn (draws 0-7), or,
   * when that one is taken, a second code (draws 8-15) followed by the last
   * three digits of `Date.now()`, which is not looked up again.
   */
  function FormCode(random: nat -> real, taken: string -> bool, now: nat): (r: string)
    ensures !taken(AlphanumericCode(random, 0)) ==> r == AlphanumericCode(random, 0)
    ensures taken(AlphanumericCode(random, 0)) ==>
      && StartsWith(r, AlphanumericCode(random, CodeLength))
      && r[|AlphanumericCode(random, CodeLength)|..] == TakeLast(Decimal(now), 3)
  {
    var first := AlphanumericCode(random, 0);
    if taken(first) then AlphanumericCode(random, CodeLength) + TakeLast(Decimal(now), 3) else first
  }

  /** With draws in range and a clock past 100 ms, a retried code is 11 characters: 8 picks and 3 digits. */
  lemma RetriedCodeLength(random: nat -> real, taken: string -> bool, now: nat)
    requires UnitDraws(random, CodeLength, CodeLength) && now >= 100
    requires taken(AlphanumericCode(random, 0))
    ensures |FormCode(random, taken, now)| == 11
  {
    DecimalLength(now);
  }

  /**
   * The handler. `body` is None when the body is not JSON; `service` is the
   * active service with the body's service id.
   */
  function CreateTrackingLink(httpMethod: string, body: Option<TrackingBody>, service: Option<ActiveService>,
                              random: nat -> real, taken: string -> bool, now: nat,
                              inserted: bool): (r: Outcome<TrackingRow>)
    ensures r != CsrfRefused
    ensures httpMethod == "OPTIONS" ==> r == Answered(200)
    ensures httpMethod != "OPTIONS" && httpMethod != "POST" ==> r == Answered(405)
    ensures httpMethod == "POST" && body.None? ==> r == Answered(500)
    ensures (&& httpMethod == "POST" && body.Some?
             && (!Truthy(body.value.name) || !Truthy(body.value.serviceId) || !Truthy(body.value.agencyId)
                 || service.None?)) ==> r == Answered(400)
    ensures (&& httpMethod == "POST" && body.Some? && Truthy(body.value.name) && Truthy(body.value.serviceId)
             && Truthy(body.value.agencyId) && service.Some?) ==> (r.Stored? <==> inserted)
    ensures r.Stored? ==>
      && body.Some? && service.Some?
      && r.row.agencyId == body.value.agencyId.value && r.row.serviceId == body.value.serviceId.value
      && r.row.name == Trim(body.value.name.value)
      && r.row.trackingCode == FormCode(random, taken, now)
      && r.row.utmSource == TrimOrNull(body.value.utmSource)
      && r.row.utmMedium == TrimOrNull(body.value.utmMedium)
      && r.row.utmCampaign == TrimOrNull(body.value.utmCampaign)
      && r.row.destinationUrl == service.value.lineOfficialUrl
      && r.row.isActive && r.row.visitCount == 0
  {
    if httpMethod == "OPTIONS" then Answered(200)
    else if httpMethod != "POST" then Answered(405)
    else if body.None? then Answered(500)
    else
      var b := body.value;
      if !Truthy(b.name) then Answered(400)
      else if !Truthy(b.serviceId) then Answered(400)
      else if !Truthy(b.agencyId) then Answered(400)
      else if service.None? then Answered(400)
      else if !inserted then Answered(500)
      else
        Stored(TrackingRow(b.agencyId.value, b.serviceId.value, Trim(b.name.value), FormCode(random, taken, now),
                           TrimOrNull(b.utmSource), TrimOrNull(b.utmMedium), TrimOrNull(b.utmCampaign),
                           service.value.lineOfficialUrl, true, 0))
  }

  /** The retried code is not looked up: when it is taken too, it is still the one inserted. */
  lemma RetriedCodeNotRechecked(b: TrackingBody, service: ActiveService, random: nat -> real,
                                taken: string -> bool, now: nat)
    requires Truthy(b.name) && Truthy(b.serviceId) && Truthy(b.agencyId)
    requires taken(AlphanumericCode(random, 0))
    requires taken(AlphanumericCode(random, CodeLength) + TakeLast(Decimal(now), 3))
    ensures var r := CreateTrackingLink("POST", Some(b), Some(service), random, taken, now, true);
      r.Stored? && taken(r.row.trackingCode)
  {
  }

  /** A name of only spaces passes the required-field check and is stored empty. */
  lemma BlankNameStoredEmpty(b: TrackingBody, service: ActiveService, random: nat -> real,
                             taken: string -> bool, now: nat)
    requires Truthy(b.name) && Trim(b.name.value) == ""
    requires Truthy(b.serviceId) && Truthy(b.agencyId)
    ensures var r := CreateTrackingLink("POST", Some(b), Some(service), random, taken, now, true);
      r.Stored? && r.row.name == ""
  {
  }
}
