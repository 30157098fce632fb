/**
 * The tracking-link redirect: the tracking code from the request path, the
 * active link it names, the visit row and visit-count write it causes, and the
 * 302 to the service's LINE URL carrying the attribution parameters.
 *
 * The links table is the lookup's result (`Query`), the clock and the random
 * part of the session id are parameters, and WHATWG URL parsing is the
 * parameter `parses`. The redirect URL is kept as its base and its appended
 * query parameters; percent-encoding, the cookie's JSON/base64 encoding and
 * the HTML bodies are not modelled.
 */
module TrackRedirect {
  import opened Wrappers
  import opened JsText
  import LineCommon

  // ---------------------------------------------------------------------------
  // Tracking code
  // ---------------------------------------------------------------------------

  /** The last '/'-separated segment of the request path. */
  function TrackingCode(path: string): (code: string)
    ensures '/' !in code
    ensures |code| <= |path| && code == path[|path| - |code|..]
    ensures code == path || path[|path| - |code| - 1] == '/'
  {
    LastSegmentSuffix(path, '/');
    LastSegment(path, '/')
  }

  /** The path names no tracking code: an empty last segment or the function's own name. */
  predicate MissingCode(code: string) {
    code == "" || code == "track-redirect"
  }

  /** A path ending in a slash has no tracking code. */
  lemma TrailingSlashHasNoCode(path: string)
    requires |path| >= 1 && path[|path| - 1] == '/'
    ensures MissingCode(TrackingCode(path))
  {
  }

  // ---------------------------------------------------------------------------
  // Link lookup
  // ---------------------------------------------------------------------------

  /** The joined service columns. */
  datatype Service = Service(id: string, name: Option<string>, lineOfficialUrl: Option<string>, domain: Option<string>)

  /** A row of the tracking-links table, with its service joined. */
  datatype Link = Link(
    id: string,
    trackingCode: string,
    isActive: bool,
    agencyId: string,
    serviceId: Option<string>,
    visitCount: Option<int>,
    destinationUrl: Option<string>,
    utmSource: Option<string>,
    utmMedium: Option<string>,
    utmCampaign: Option<string>,
    utmTerm: Option<string>,
    utmContent: Option<string>,
    services: Option<Service>)

  predicate Matches(l: Link, code: string) {
    l.trackingCode == code && l.isActive
  }

  function MatchingRows(rows: seq<Link>, code: string): (r: seq<Link>)
    ensures forall l :: l in r <==> l in rows && Matches(l, code)
    ensures |r| <= |rows|
  {
    if rows == [] then []
    else (if Matches(rows[0], code) then [rows[0]] else []) + MatchingRows(rows[1..], code)
  }

  /**
   * The active link with this code, read with `.single()`: found only when
   * exactly one row matches; none, several or a failed query give no link.
   */
  function FindLink(q: Query<seq<Link>>, code: string): (r: Option<Link>)
    ensures q.QueryError? ==> r.None?
    ensures r.Some? ==> r.value in q.rows && Matches(r.value, code)
    ensures q.Rows? ==> (r.Some? <==> |MatchingRows(q.rows, code)| == 1)
  {
    match q
    case QueryError => None
    case Rows(rows) =>
      var m := MatchingRows(rows, code);
      if |m| == 1 then assert m[0] in m; Some(m[0]) else None
  }

  /** An inactive link is never found, whatever else the table holds. */
  lemma InactiveLinkNotFound(rows: seq<Link>, code: string, l: Link)
    requires FindLink(Rows(rows), code) == Some(l)
    ensures l.isActive && l.trackingCode == code
  {
  }

  // ---------------------------------------------------------------------------
  // User-Agent classifiers
  // ---------------------------------------------------------------------------

  /** `getUserDeviceType`: mobile, then tablet, then bot, else desktop. */
  function DeviceType(userAgent: Option<string>): (r: string)
    ensures !Truthy(userAgent) ==> r == "unknown"
    ensures Truthy(userAgent) ==> var ua := userAgent.value;
      && (r == "mobile" <==> ContainsCI(ua, "mobile"))
      && (r == "tablet" <==> !ContainsCI(ua, "mobile") && ContainsCI(ua, "tablet"))
      && (r == "bot" <==> !ContainsCI(ua, "mobile") && !ContainsCI(ua, "tablet") && ContainsCI(ua, "bot"))
      && (r == "desktop" <==> !ContainsCI(ua, "mobile") && !ContainsCI(ua, "tablet") && !ContainsCI(ua, "bot"))
  {
    if !Truthy(userAgent) then "unknown"
    else
      var ua := userAgent.value;
      if ContainsCI(ua, "mobile") then "mobile"
      else if ContainsCI(ua, "tablet") then "tablet"
      else if ContainsCI(ua, "bot") then "bot"
      else "desktop"
  }

  /** `getUserBrowser`: Chrome (not Edge), Safari (not Chrome), Firefox, Edge, LINE, else other. */
  function UserBrowser(userAgent: Option<string>): (r: string)
    ensures !Truthy(userAgent) ==> r == "unknown"
    ensures Truthy(userAgent) ==> var ua := userAgent.value;
      && (r == "Chrome" <==> ContainsCI(ua, "chrome") && !ContainsCI(ua, "edge"))
      && (r == "Safari" <==> ContainsCI(ua, "safari") && !ContainsCI(ua, "chrome"))
      && (r == "Firefox" <==>
            && !(ContainsCI(ua, "chrome") && !ContainsCI(ua, "edge"))
            && !(ContainsCI(ua, "safari") && !ContainsCI(ua, "chrome"))
            && ContainsCI(ua, "firefox"))
      && (r == "Edge" <==>
            && ContainsCI(ua, "edge") && !ContainsCI(ua, "firefox")
            && !(ContainsCI(ua, "safari") && !ContainsCI(ua, "chrome")))
      && (r == "LINE" <==>
            && !ContainsCI(ua, "chrome") && !ContainsCI(ua, "safari") && !ContainsCI(ua, "firefox")
            && !ContainsCI(ua, "edge") && ContainsCI(ua, "line"))
      && (r == "other" <==>
            && !ContainsCI(ua, "chrome") && !ContainsCI(ua, "safari") && !ContainsCI(ua, "firefox")
            && !ContainsCI(ua, "edge") && !ContainsCI(ua, "line"))
  {
    if !Truthy(userAgent) then "unknown"
    else
      var ua := userAgent.value;
      if ContainsCI(ua, "chrome") && !ContainsCI(ua, "edge") then "Chrome"
      else if ContainsCI(ua, "safari") && !ContainsCI(ua, "chrome") then "Safari"
      else if ContainsCI(ua, "firefox") then "Firefox"
      else if ContainsCI(ua, "edge") then "Edge"
      else if ContainsCI(ua, "line") then "LINE"
      else "other"
  }

  /** `getUserOS`: Windows, macOS, Linux, Android, iOS, in that order, else other. */
  function UserOs(userAgent: Option<string>): (r: string)
    ensures !Truthy(userAgent) ==> r == "unknown"
    ensures Truthy(userAgent) ==> var ua := userAgent.value;
      var mac := ContainsCI(ua, "macintosh") || ContainsCI(ua, "mac os x");
      var ios := ContainsCI(ua, "iphone") || ContainsCI(ua, "ipad") || ContainsCI(ua, "ipod");
      && (r == "Windows" <==> ContainsCI(ua, "windows"))
      && (r == "macOS" <==> !ContainsCI(ua, "windows") && mac)
      && (r == "Linux" <==> !ContainsCI(ua, "windows") && !mac && ContainsCI(ua, "linux"))
      && (r == "Android" <==> !ContainsCI(ua, "windows") && !mac && !ContainsCI(ua, "linux") && ContainsCI(ua, "android"))
      && (r == "iOS" <==> !ContainsCI(ua, "windows") && !mac && !ContainsCI(ua, "linux") && !ContainsCI(ua, "android") && ios)
      && (r == "other" <==> !ContainsCI(ua, "windows") && !mac && !ContainsCI(ua, "linux") && !ContainsCI(ua, "android") && !ios)
  {
    if !Truthy(userAgent) then "unknown"
    else
      var ua := userAgent.value;
      if ContainsCI(ua, "windows") then "Windows"
      else if ContainsCI(ua, "macintosh") || ContainsCI(ua, "mac os x") then "macOS"
      else if ContainsCI(ua, "linux") then "Linux"
      else if ContainsCI(ua, "android") then "Android"
      else if ContainsCI(ua, "iphone") || ContainsCI(ua, "ipad") || ContainsCI(ua, "ipod") then "iOS"
      else "other"
  }

  /** Android User-Agents carry "Linux" and are therefore reported as Linux. */
  lemma AndroidReportedAsLinux(ua: string)
    requires ua != "" && ContainsCI(ua, "android") && ContainsCI(ua, "linux")
    requires !ContainsCI(ua, "windows") && !ContainsCI(ua, "macintosh") && !ContainsCI(ua, "mac os x")
    ensures UserOs(Some(ua)) == "Linux"
  {
  }

  /** An iPhone User-Agent carrying "Mac OS X" is reported as macOS. */
  lemma IphoneReportedAsMac(ua: string)
    requires ua != "" && ContainsCI(ua, "iphone") && ContainsCI(ua, "mac os x") && !ContainsCI(ua, "windows")
    ensures UserOs(Some(ua)) == "macOS"
  {
  }

  /** "Edg/" contains "edg" but not "edge": this classifier calls such a Chromium Edge "Chrome" where the webhook one says Edge. */
  lemma ChromiumEdgeClassifiersDisagree(ua: string)
    requires ua != "" && Contains(Lower(ua), "edg/") && Contains(Lower(ua), "chrome")
    requires !Contains(Lower(ua), "edge")
    ensures UserBrowser(Some(ua)) == "Chrome"
    ensures LineCommon.ExtractBrowser(ua) == LineCommon.Edge
  {
  }

  // ---------------------------------------------------------------------------
  // Session id
  // ---------------------------------------------------------------------------

  /**
   * `generateSessionId`: "sess_", the clock in base 36, then at most nine
   * characters after the "0." of the random number's base-36 text.
   */
  function SessionId(nowMs: nat, randomText: string): (r: string)
    ensures StartsWith(r, "sess_")
    ensures var t := Digits(nowMs, 36);
      && 5 + |t| <= |r| <= 5 + |t| + 9
      && ParseDigits(r[5..5 + |t|], 36) == nowMs
  {
    var t := Digits(nowMs, 36);
    var r := "sess_" + t + Substring(randomText, 2, 11);
    assert r[..5] == "sess_";
    assert r[5..5 + |t|] == t;
    ParseDigitsRoundTrip(nowMs, 36);
    r
  }

  // ---------------------------------------------------------------------------
  // The handler
  // ---------------------------------------------------------------------------

  /** The visit row the redirect inserts. */
  datatype VisitRow = VisitRow(
    trackingLinkId: string,
    agencyId: string,
    serviceId: Option<string>,
    visitorIp: Option<string>,
    userAgent: Option<string>,
    referrer: Option<string>,
    deviceType: string,
    browser: string,
    os: string,
    sessionId: string,
    lineUserId: Option<string>,
    trackingCode: string)

  /** The redirect target: the destination and the query parameters appended to it, in order. */
  datatype RedirectUrl = RedirectUrl(base: string, params: seq<(string, string)>)

  /** The tracking cookie's payload, valid for `CookieMaxAge` seconds. */
  datatype Cookie = Cookie(trackingCode: string, sessionId: string, agencyId: string, maxAge: nat)

  const CookieMaxAge: nat := 2592000

  /** The response with the two writes it caused (none before the link is found). */
  datatype Outcome = Outcome(
    status: int,
    location: Option<RedirectUrl>,
    cookie: Option<Cookie>,
    visit: Option<VisitRow>,
    visitCountWrite: Option<int>)

  /** `null + 1` is 1 in JavaScript, so a missing count becomes 1. */
  function NextVisitCount(count: Option<int>): (r: int)
    ensures count.Some? ==> r == count.value + 1
    ensures count.None? ==> r == 1
  {
    match count
    case None => 1
    case Some(c) => c + 1
  }

  /** `link.services?.line_official_url || link.destination_url`. */
  function Destination(l: Link): (r: Option<string>)
    ensures l.services.Some? && Truthy(l.services.value.lineOfficialUrl) ==> r == l.services.value.lineOfficialUrl
    ensures !(l.services.Some? && Truthy(l.services.value.lineOfficialUrl)) ==> r == l.destinationUrl
  {
    var official := match l.services case Some(s) => s.lineOfficialUrl case None => None;
    OrElse(official, l.destinationUrl)
  }

  /** An appended parameter only when the link's field is set. */
  function Optional(key: string, value: Option<string>): seq<(string, string)> {
    if Truthy(value) then [(key, value.value)] else []
  }

  /** The UTM parameter names, in the order they are appended. */
  const UtmKeys: seq<string> := ["utm_source", "utm_medium", "utm_campaign", "utm_term", "utm_content"]

  /** The link's UTM fields, in the order of `UtmKeys`. */
  function UtmValues(l: Link): seq<Option<string>> {
    [l.utmSource, l.utmMedium, l.utmCampaign, l.utmTerm, l.utmContent]
  }

  /** Each key whose value is truthy, with that value, in order. */
  function Optionals(keys: seq<string>, values: seq<Option<string>>): seq<(string, string)>
    requires |keys| == |values|
  {
    if keys == [] then [] else Optional(keys[0], values[0]) + Optionals(keys[1..], values[1..])
  }

  /** Each UTM field the link has, in the order they are appended. */
  function UtmParams(l: Link): seq<(string, string)> {
    Optionals(UtmKeys, UtmValues(l))
  }

  /** tid, sid and aid, then each UTM field the link has. */
  function RedirectParams(code: string, sessionId: string, l: Link): seq<(string, string)> {
    [("tid", code), ("sid", sessionId), ("aid", l.agencyId)] + UtmParams(l)
  }

  /** `searchParams.get(key)`: the first value appended under the key. */
  function ParamValue(ps: seq<(string, string)>, key: string): Option<string> {
    if ps == [] then None
    else if ps[0].0 == key then Some(ps[0].1)
    else ParamValue(ps[1..], key)
  }

  /** Past the three fixed parameters, a UTM key is looked up in the UTM part. */
  lemma SkipFixed(code: string, sessionId: string, agencyId: string, utm: seq<(string, string)>, key: string)
    requires key != "tid" && key != "sid" && key != "aid"
    ensures ParamValue([("tid", code), ("sid", sessionId), ("aid", agencyId)] + utm, key) == ParamValue(utm, key)
  {
    var ps := [("tid", code), ("sid", sessionId), ("aid", agencyId)] + utm;
    assert ps[1..] == [("sid", sessionId), ("aid", agencyId)] + utm;
    assert ps[1..][1..] == [("aid", agencyId)] + utm;
    assert ps[1..][1..][1..] == utm;
    assert ParamValue(ps, key) == ParamValue(ps[1..], key);
    assert ParamValue(ps[1..], key) == ParamValue(ps[1..][1..], key);
    assert ParamValue(ps[1..][1..], key) == ParamValue(utm, key);
  }

  /** Reading an optional parameter back from its own segment. */
  lemma OptionalHit(key: string, value: Option<string>, rest: seq<(string, string)>)
    ensures ParamValue(Optional(key, value) + rest, key) == if Truthy(value) then value else ParamValue(rest, key)
  {
    if !Truthy(value) {
      assert Optional(key, value) + rest == rest;
    } else {
      assert (Optional(key, value) + rest)[1..] == rest;
    }
  }

  /** Reading past an optional parameter under another key. */
  lemma OptionalSkip(key: string, value: Option<string>, rest: seq<(string, string)>, other: string)
    requires other != key
    ensures ParamValue(Optional(key, value) + rest, other) == ParamValue(rest, other)
  {
    if !Truthy(value) {
      assert Optional(key, value) + rest == rest;
    } else {
      assert (Optional(key, value) + rest)[1..] == rest;
    }
  }

  /** The three fixed parameters read back whatever follows them. */
  lemma FixedReadBack(code: string, sessionId: string, agencyId: string, utm: seq<(string, string)>)
    ensures var ps := [("tid", code), ("sid", sessionId), ("aid", agencyId)] + utm;
      && ParamValue(ps, "tid") == Some(code)
      && ParamValue(ps, "sid") == Some(sessionId)
      && ParamValue(ps, "aid") == Some(agencyId)
  {
    var ps := [("tid", code), ("sid", sessionId), ("aid", agencyId)] + utm;
    assert ps[1..] == [("sid", sessionId), ("aid", agencyId)] + utm;
    assert ps[1..][1..] == [("aid", agencyId)] + utm;
    assert ParamValue(ps, "aid") == ParamValue(ps[1..], "aid") == ParamValue(ps[1..][1..], "aid");
  }

  /** A key none of the optional parameters uses is not found among them. */
  lemma {:induction false} OptionalsMiss(keys: seq<string>, values: seq<Option<string>>, key: string)
    requires |keys| == |values| && key !in keys
    ensures ParamValue(Optionals(keys, values), key) == None
  {
    if keys != [] {
      OptionalsMiss(keys[1..], values[1..], key);
      OptionalSkip(keys[0], values[0], Optionals(keys[1..], values[1..]), key);
    }
  }

  /** With distinct keys, each key reads back its own value when that value is truthy, and nothing otherwise. */
  lemma {:induction false} OptionalsReadBack(keys: seq<string>, values: seq<Option<string>>, i: nat)
    requires |keys| == |values| && i < |keys|
    requires forall a, b :: 0 <= a < b < |keys| ==> keys[a] != keys[b]
    ensures ParamValue(Optionals(keys, values), keys[i]) == if Truthy(values[i]) then values[i] else None
  {
    var rest := Optionals(keys[1..], values[1..]);
    if i == 0 {
      OptionalHit(keys[0], values[0], rest);
      assert keys[0] !in keys[1..];
      OptionalsMiss(keys[1..], values[1..], keys[0]);
    } else {
      OptionalSkip(keys[0], values[0], rest, keys[i]);
      OptionalsReadBack(keys[1..], values[1..], i - 1);
    }
  }

  /** The five UTM keys differ from each other. */
  lemma UtmKeysDistinct()
    ensures forall a, b :: 0 <= a < b < |UtmKeys| ==> UtmKeys[a] != UtmKeys[b]
  {
    assert UtmKeys[0][4] != UtmKeys[1][4];
  }

  /** The UTM segment: each field is found exactly when the link has it. */
  lemma UtmReadBack(l: Link)
    ensures var utm := UtmParams(l);
      && ParamValue(utm, "utm_source") == (if Truthy(l.utmSource) then l.utmSource else None)
      && ParamValue(utm, "utm_medium") == (if Truthy(l.utmMedium) then l.utmMedium else None)
      && ParamValue(utm, "utm_campaign") == (if Truthy(l.utmCampaign) then l.utmCampaign else None)
      && ParamValue(utm, "utm_term") == (if Truthy(l.utmTerm) then l.utmTerm else None)
      && ParamValue(utm, "utm_content") == (if Truthy(l.utmContent) then l.utmContent else None)
  {
    UtmKeysDistinct();
    OptionalsReadBack(UtmKeys, UtmValues(l), 0);
    OptionalsReadBack(UtmKeys, UtmValues(l), 1);
    OptionalsReadBack(UtmKeys, UtmValues(l), 2);
    OptionalsReadBack(UtmKeys, UtmValues(l), 3);
    OptionalsReadBack(UtmKeys, UtmValues(l), 4);
  }

  /**
   * The destination page reads back exactly the attribution it was sent:
   * the tracking code, the session id and the agency id, and each UTM field
   * exactly when the link has it.
   */
  lemma RedirectParamsReadBack(code: string, sessionId: string, l: Link)
    ensures var ps := RedirectParams(code, sessionId, l);
      && ParamValue(ps, "tid") == Some(code)
      && ParamValue(ps, "sid") == Some(sessionId)
      && ParamValue(ps, "aid") == Some(l.agencyId)
      && ParamValue(ps, "utm_source") == (if Truthy(l.utmSource) then l.utmSource else None)
      && ParamValue(ps, "utm_medium") == (if Truthy(l.utmMedium) then l.utmMedium else None)
      && ParamValue(ps, "utm_campaign") == (if Truthy(l.utmCampaign) then l.utmCampaign else None)
      && ParamValue(ps, "utm_term") == (if Truthy(l.utmTerm) then l.utmTerm else None)
      && ParamValue(ps, "utm_content") == (if Truthy(l.utmContent) then l.utmContent else None)
  {
    var ps := RedirectParams(code, sessionId, l);
    var utm := UtmParams(l);
    FixedReadBack(code, sessionId, l.agencyId, utm);
    UtmReadBack(l);
    SkipFixed(code, sessionId, l.agencyId, utm, "utm_source");
    SkipFixed(code, sessionId, l.agencyId, utm, "utm_medium");
    SkipFixed(code, sessionId, l.agencyId, utm, "utm_campaign");
    SkipFixed(code, sessionId, l.agencyId, utm, "utm_term");
    SkipFixed(code, sessionId, l.agencyId, utm, "utm_content");
  }

  /**
   * The row recorded for this visit: the link's identity, its service only
   * when truthy, the address from x-forwarded-for unless that is empty and
   * then client-ip, the User-Agent and referrer as sent (referer before
   * referrer), the three classifications of that User-Agent, the session
   * and the tracking code, and no LINE user yet.
   */
  function VisitRowFor(l: Link, code: string, headers: map<string, string>, sessionId: string): (r: VisitRow)
    ensures r.trackingLinkId == l.id && r.agencyId == l.agencyId
    ensures r.serviceId == (if l.serviceId.Some? && l.serviceId.value != "" then l.serviceId else None)
    ensures r.visitorIp.Some? <==> ("x-forwarded-for" in headers && headers["x-forwarded-for"] != "") || "client-ip" in headers
    ensures "x-forwarded-for" in headers && headers["x-forwarded-for"] != "" ==> r.visitorIp == Some(headers["x-forwarded-for"])
    ensures ("x-forwarded-for" !in headers || headers["x-forwarded-for"] == "") && "client-ip" in headers ==>
      r.visitorIp == Some(headers["client-ip"])
    ensures r.userAgent.Some? <==> "user-agent" in headers
    ensures r.userAgent.Some? ==> r.userAgent.value == headers["user-agent"]
    ensures r.referrer.Some? <==> ("referer" in headers && headers["referer"] != "") || "referrer" in headers
    ensures "referer" in headers && headers["referer"] != "" ==> r.referrer == Some(headers["referer"])
    ensures ("referer" !in headers || headers["referer"] == "") && "referrer" in headers ==>
      r.referrer == Some(headers["referrer"])
    ensures r.deviceType == DeviceType(r.userAgent) && r.browser == UserBrowser(r.userAgent) && r.os == UserOs(r.userAgent)
    ensures r.sessionId == sessionId && r.lineUserId.None? && r.trackingCode == code
  {
    var ua := LineCommon.Header(headers, "user-agent");
    VisitRow(l.id, l.agencyId, if Truthy(l.serviceId) then l.serviceId else None,
             OrElse(LineCommon.Header(headers, "x-forwarded-for"), LineCommon.Header(headers, "client-ip")),
             ua,
             OrElse(LineCommon.Header(headers, "referer"), LineCommon.Header(headers, "referrer")),
             DeviceType(ua), UserBrowser(ua), UserOs(ua),
             sessionId, None, code)
  }

  /**
   * The handler: 404 before any lookup for a missing code; 404 when no
   * single active link has the code; otherwise the visit row and the
   * incremented count are written (their failures are only logged), then
   * 500 without a destination or when it does not parse as a URL, else the
   * 302 with the attribution parameters and the tracking cookie.
   */
  function HandleTrackRedirect(path: string, headers: map<string, string>, links: Query<seq<Link>>,
                               nowMs: nat, randomText: string, parses: string -> bool): (r: Outcome)
    ensures MissingCode(TrackingCode(path)) ==> r == Outcome(404, None, None, None, None)
    ensures !MissingCode(TrackingCode(path)) && FindLink(links, TrackingCode(path)).None? ==>
      r == Outcome(404, None, None, None, None)
    ensures r.visit.Some? <==> r.status != 404
    ensures r.visit.Some? ==> exists l :: (
      && FindLink(links, TrackingCode(path)) == Some(l)
      && r.visitCountWrite == Some(NextVisitCount(l.visitCount))
      && r.visit.value == VisitRowFor(l, TrackingCode(path), headers, SessionId(nowMs, randomText))
      && r.visit.value.trackingLinkId == l.id && r.visit.value.lineUserId.None?
      && r.visit.value.visitorIp == OrElse(LineCommon.Header(headers, "x-forwarded-for"), LineCommon.Header(headers, "client-ip"))
      && (r.status == 302 <==> Truthy(Destination(l)) && parses(Destination(l).value))
      && (r.status == 302 ==> r.location == Some(RedirectUrl(Destination(l).value,
                                RedirectParams(TrackingCode(path), r.visit.value.sessionId, l)))))
    ensures r.status in {302, 404, 500}
    ensures r.status == 302 <==> r.location.Some?
    ensures r.status == 302 ==> (
      && r.cookie.Some? && r.cookie.value.maxAge == CookieMaxAge
      && r.cookie.value.sessionId == r.visit.value.sessionId
      && r.cookie.value.trackingCode == TrackingCode(path))
  {
    var code := TrackingCode(path);
    if MissingCode(code) then Outcome(404, None, None, None, None)
    else match FindLink(links, code)
      case None => Outcome(404, None, None, None, None)
      case Some(l) =>
        var sid := SessionId(nowMs, randomText);
        var visit := Some(VisitRowFor(l, code, headers, sid));
        var count := Some(NextVisitCount(l.visitCount));
        var dest := Destination(l);
        if !Truthy(dest) || !parses(dest.value) then Outcome(500, None, None, visit, count)
        else
          Outcome(302, Some(RedirectUrl(dest.value, RedirectParams(code, sid, l))),
                  Some(Cookie(code, sid, l.agencyId, CookieMaxAge)), visit, count)
  }

  /** Every redirect's session id is a well-formed "sess_" id shared by the visit row, the URL and the cookie. */
  lemma RedirectCarriesSession(path: string, headers: map<string, string>, links: Query<seq<Link>>,
                               nowMs: nat, randomText: string, parses: string -> bool)
    requires HandleTrackRedirect(path, headers, links, nowMs, randomText, parses).status == 302
    ensures var r := HandleTrackRedirect(path, headers, links, nowMs, randomText, parses);
      && r.visit.value.sessionId == SessionId(nowMs, randomText)
      && StartsWith(r.visit.value.sessionId, "sess_")
      && ParamValue(r.location.value.params, "sid") == Some(r.visit.value.sessionId)
      && ParamValue(r.location.value.params, "tid") == Some(TrackingCode(path))
  {
    var code := TrackingCode(path);
    var l := FindLink(links, code).value;
    RedirectParamsReadBack(code, SessionId(nowMs, randomText), l);
  }
}
