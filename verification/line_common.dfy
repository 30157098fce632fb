/**
 * The helpers every LINE webhook shares: signature verification, the browser
 * family of a User-Agent, the client address behind the proxy headers, and the
 * get-or-create of a LINE user row.
 *
 * The HMAC-SHA256/base64 digest is a parameter `hmac(secret, body)`; the users
 * table is a map from LINE user id to row, and the database outcomes
 * (update/insert succeeded) are parameters.
 */
module LineCommon {
  import opened Wrappers
  import opened JsText

  // ---------------------------------------------------------------------------
  // verifySignature
  // ---------------------------------------------------------------------------

  /**
   * A webhook body is authentic when both the channel secret and the
   * `X-Line-Signature` header are present and the signature is exactly the
   * digest of the body under the secret.
   */
  function VerifySignature(body: string, signature: Option<string>, secret: Option<string>,
                           hmac: (string, string) -> string): (ok: bool)
    ensures !Truthy(secret) || !Truthy(signature) ==> !ok
    ensures ok ==> signature == Some(hmac(secret.value, body))
    ensures Truthy(secret) && Truthy(signature) && signature.value == hmac(secret.value, body) ==> ok
  {
    Truthy(secret) && Truthy(signature) && hmac(secret.value, body) == signature.value
  }

  /** A body signed with the channel secret verifies; any other signature does not. */
  lemma SignedBodyVerifies(body: string, secret: string, other: string, hmac: (string, string) -> string)
    requires secret != "" && hmac(secret, body) != ""
    ensures VerifySignature(body, Some(hmac(secret, body)), Some(secret), hmac)
    ensures other != hmac(secret, body) ==> !VerifySignature(body, Some(other), Some(secret), hmac)
  {
  }

  // ---------------------------------------------------------------------------
  // extractBrowser
  // ---------------------------------------------------------------------------

  /** The browser families `extractBrowser` distinguishes. */
  datatype Browser = Edge | Chrome | Firefox | Safari | LineApp | Opera | UnknownBrowser

  /**
   * The browser family of a User-Agent, decided by ordered case-insensitive
   * token tests on the lower-cased string.
   */
  function ExtractBrowser(userAgent: string): (r: Browser)
    ensures var ua := Lower(userAgent);
      && (r == Edge <==> Contains(ua, "edg/"))
      && (r == Chrome <==> !Contains(ua, "edg/") && Contains(ua, "chrome/"))
      && (r == Firefox <==> !Contains(ua, "edg/") && !Contains(ua, "chrome/") && Contains(ua, "firefox/"))
      && (r == Safari <==>
            !Contains(ua, "edg/") && !Contains(ua, "chrome/") && !Contains(ua, "firefox/") && Contains(ua, "safari/"))
      && (r == LineApp <==>
            && !Contains(ua, "edg/") && !Contains(ua, "chrome/") && !Contains(ua, "firefox/")
            && !Contains(ua, "safari/") && Contains(ua, "line/"))
      && (r == UnknownBrowser <==>
            && !Contains(ua, "edg/") && !Contains(ua, "chrome/") && !Contains(ua, "firefox/")
            && !Contains(ua, "safari/") && !Contains(ua, "line/")
            && !Contains(ua, "opera/") && !Contains(ua, "opr/"))
      && (r == Opera <==>
            && !Contains(ua, "edg/") && !Contains(ua, "chrome/") && !Contains(ua, "firefox/")
            && !Contains(ua, "safari/") && !Contains(ua, "line/")
            && (Contains(ua, "opera/") || Contains(ua, "opr/")))
  {
    var ua := Lower(userAgent);
    if Contains(ua, "edg/") then Edge
    else if Contains(ua, "chrome/") && !Contains(ua, "edg/") then Chrome
    else if Contains(ua, "firefox/") then Firefox
    else if Contains(ua, "safari/") && !Contains(ua, "chrome/") then Safari
    else if Contains(ua, "line/") then LineApp
    else if Contains(ua, "opera/") || Contains(ua, "opr/") then Opera
    else UnknownBrowser
  }

  /** The family depends only on the lower-cased User-Agent. */
  lemma ExtractBrowserCaseInsensitive(userAgent: string)
    ensures ExtractBrowser(Lower(userAgent)) == ExtractBrowser(userAgent)
  {
    LowerIdempotent(userAgent);
  }

  /** Two User-Agents that agree up to case have the same family. */
  lemma ExtractBrowserSameLower(a: string, b: string)
    requires Lower(a) == Lower(b)
    ensures ExtractBrowser(a) == ExtractBrowser(b)
  {
  }

  // ---------------------------------------------------------------------------
  // getClientIPFromHeaders
  // ---------------------------------------------------------------------------

  /** The proxy headers consulted for the client address, in priority order. */
  const IpHeaders: seq<string> :=
    ["x-forwarded-for", "x-real-ip", "x-client-ip", "cf-connecting-ip",
     "x-forwarded", "forwarded-for", "forwarded"]

  /** `headers[name]`, absent when the header was not sent. */
  function Header(headers: map<string, string>, name: string): (r: Option<string>)
    ensures r.Some? <==> name in headers
    ensures r.Some? ==> r.value == headers[name]
  {
    if name in headers then Some(headers[name]) else None
  }

  /** `headers[name]` is present and non-empty. */
  predicate HeaderTruthy(headers: map<string, string>, name: string) {
    name in headers && headers[name] != ""
  }

  /** The first comma-separated entry of a header value, trimmed. */
  function FirstEntry(value: string): string {
    Trim(FirstSegment(value, ','))
  }

  /** `names[k]` is the first name in `names` whose header is truthy. */
  predicate FirstTruthyAt(headers: map<string, string>, names: seq<string>, k: int) {
    && 0 <= k < |names|
    && HeaderTruthy(headers, names[k])
    && (forall j :: 0 <= j < k ==> !HeaderTruthy(headers, names[j]))
  }

  /** The first entry of the first truthy header among `names`, or "unknown". */
  function IpFromNames(headers: map<string, string>, names: seq<string>): (r: string)
    ensures forall k :: FirstTruthyAt(headers, names, k) ==> r == FirstEntry(headers[names[k]])
    ensures (forall k :: 0 <= k < |names| ==> !HeaderTruthy(headers, names[k])) ==> r == "unknown"
    decreases |names|
  {
    if names == [] then "unknown"
    else if HeaderTruthy(headers, names[0]) then FirstEntry(headers[names[0]])
    else
      var r := IpFromNames(headers, names[1..]);
      assert forall k :: 1 <= k && FirstTruthyAt(headers, names, k) ==> FirstTruthyAt(headers, names[1..], k - 1);
      r
  }

  /** `getClientIPFromHeaders`: the client address the proxy headers report. */
  function ClientIpFromHeaders(headers: map<string, string>): (r: string)
    ensures forall k :: FirstTruthyAt(headers, IpHeaders, k) ==> r == FirstEntry(headers[IpHeaders[k]])
    ensures (forall k :: 0 <= k < |IpHeaders| ==> !HeaderTruthy(headers, IpHeaders[k])) ==> r == "unknown"
  {
    IpFromNames(headers, IpHeaders)
  }

  /** `x-forwarded-for` wins over every other header, and only its first hop is kept. */
  lemma ForwardedForWins(headers: map<string, string>)
    requires HeaderTruthy(headers, "x-forwarded-for")
    ensures ClientIpFromHeaders(headers) == FirstEntry(headers["x-forwarded-for"])
  {
    assert FirstTruthyAt(headers, IpHeaders, 0);
  }

  /**
   * "unknown" does not mean that no header was present: a proxy that sends the
   * literal text also yields it.
   */
  lemma UnknownNotOnlyWhenMissing()
    ensures var h := map["x-real-ip" := "unknown"];
      HeaderTruthy(h, "x-real-ip") && ClientIpFromHeaders(h) == "unknown"
  {
    var h := map["x-real-ip" := "unknown"];
    assert FirstTruthyAt(h, IpHeaders, 1);
    UnknownEntry();
  }

  lemma UnknownEntry()
    ensures FirstEntry("unknown") == "unknown"
  {
    var u := "unknown";
    assert ',' !in u && !IsSpace(u[0]) && !IsSpace(u[|u| - 1]);
    PlainEntry(u);
  }

  /** A value without commas or surrounding white space is its own first entry. */
  lemma PlainEntry(s: string)
    requires ',' !in s && (s == "" || (!IsSpace(s[0]) && !IsSpace(s[|s| - 1])))
    ensures FirstEntry(s) == s
  {
    assert FirstSegment(s, ',') == s;
    TrimNoop(s);
  }

  /** A present header whose first entry is blank yields the empty address. */
  lemma BlankFirstEntry()
    ensures ClientIpFromHeaders(map["x-forwarded-for" := " ,10.0.0.1"]) == ""
  {
    var h := map["x-forwarded-for" := " ,10.0.0.1"];
    assert FirstTruthyAt(h, IpHeaders, 0);
    assert FirstSegment(" ,10.0.0.1", ',') == " ";
    var t := Trim(" ");
    assert t == "";
  }

  // ---------------------------------------------------------------------------
  // getOrCreateLineUser
  // ---------------------------------------------------------------------------

  /** The LINE profile fields the users table stores. */
  datatype Profile = Profile(userId: string, displayName: string,
                             pictureUrl: Option<string>, statusMessage: Option<string>)

  /** A row of the users table. */
  datatype User = User(id: string, lineUserId: string, displayName: string,
                       pictureUrl: Option<string>, statusMessage: Option<string>,
                       serviceCode: string, createdAt: int, updatedAt: int)

  /** The returned user with the table after the call, or the insert error that is thrown. */
  datatype Upsert = Upserted(user: User, users: map<string, User>) | InsertFailed

  /** The existing row with its profile fields refreshed. */
  function RefreshProfile(u: User, p: Profile, now: int): User {
    u.(displayName := p.displayName, pictureUrl := p.pictureUrl,
       statusMessage := p.statusMessage, updatedAt := now)
  }

  /**
   * `getOrCreateLineUser`: an existing user (keyed by LINE user id) has its
   * profile fields refreshed and is returned — the stale row when the update
   * fails; an unknown user is inserted with the service code, and a failed
   * insert is thrown.
   */
  function GetOrCreateLineUser(users: map<string, User>, p: Profile, serviceCode: string,
                               newId: string, now: int, updateOk: bool, insertOk: bool): (r: Upsert)
    ensures p.userId in users && !updateOk ==> r == Upserted(users[p.userId], users)
    ensures p.userId in users && updateOk ==>
      && r.Upserted?
      && r.user.id == users[p.userId].id && r.user.serviceCode == users[p.userId].serviceCode
      && r.user.displayName == p.displayName && r.user.statusMessage == p.statusMessage
      && r.user.pictureUrl == p.pictureUrl
      && r.users == users[p.userId := r.user]
    ensures p.userId !in users ==> (r.InsertFailed? <==> !insertOk)
    ensures p.userId !in users && r.Upserted? ==>
      && r.user.id == newId && r.user.serviceCode == serviceCode && r.user.lineUserId == p.userId
      && r.users == users[p.userId := r.user]
    ensures r.Upserted? ==> r.users.Keys == users.Keys + {p.userId} && r.users[p.userId] == r.user
  {
    if p.userId in users then
      if updateOk then
        var u := RefreshProfile(users[p.userId], p, now);
        Upserted(u, users[p.userId := u])
      else Upserted(users[p.userId], users)
    else if insertOk then
      var u := User(newId, p.userId, p.displayName, p.pictureUrl, p.statusMessage, serviceCode, now, now);
      Upserted(u, users[p.userId := u])
    else InsertFailed
  }

  /**
   * A second follow by the same LINE user finds the row the first one wrote and
   * returns the same user id and service code, whatever the later outcomes.
   */
  lemma GetOrCreateStable(users: map<string, User>, p: Profile, q: Profile, code1: string, code2: string,
                          id1: string, id2: string, t1: int, t2: int,
                          up1: bool, ins1: bool, up2: bool, ins2: bool)
    requires q.userId == p.userId
    requires GetOrCreateLineUser(users, p, code1, id1, t1, up1, ins1).Upserted?
    ensures var first := GetOrCreateLineUser(users, p, code1, id1, t1, up1, ins1);
      var second := GetOrCreateLineUser(first.users, q, code2, id2, t2, up2, ins2);
      && second.Upserted?
      && second.user.id == first.user.id
      && second.user.serviceCode == first.user.serviceCode
  {
  }
}
