/**
 * The crawler detector: an additive confidence score from the visitor's
 * address and User-Agent, with a whitelist of social-app in-app browsers and
 * an exception for Facebook's app, plus the list filter and the statistics
 * built on it.
 *
 * Every address pattern is an anchored literal prefix and every User-Agent
 * pattern a lower-case literal matched case-insensitively, so the model uses
 * `StartsWith` and `ContainsCI` and is exact for them.
 */
module BotDetector {
  import opened Wrappers
  import opened JsText
  import opened Attribution

  /** Address prefixes of known crawlers. */
  const BotIpPrefixes: seq<string> := [
    "2a03:2880:", "66.220.", "69.63.", "173.252.", "204.15.20.", "31.13.", "157.240.",
    "2800:3f0:", "66.249.", "64.233.", "72.14.", "209.85.", "216.239.",
    "199.16.157.", "199.59.150.",
    "108.174.",
    "2001:4860:"]

  const FacebookIpPrefixes: seq<string> := ["2a03:2880:", "66.220.", "69.63."]
  const GoogleIpPrefixes: seq<string> := ["2800:3f0:", "66.249."]

  /** User-Agent markers of crawlers, in the order they are tried. */
  const BotUaPatterns: seq<string> := [
    "bot", "crawler", "spider", "scraper",
    "googlebot", "bingbot", "slurp", "duckduckbot", "baiduspider", "yandexbot",
    "facebot", "facebookexternalhit", "twitterbot", "linkedinbot", "whatsapp",
    "telegrambot", "discordbot", "slackbot",
    "pingdom", "uptimerobot", "statuscake", "headless", "phantom", "selenium", "webdriver",
    "preview", "rendering"]

  /** User-Agent markers of social apps' in-app browsers. */
  const SocialAppPatterns: seq<string> := ["instagram", "threads", "fbav", "fban", "line/", "tiktok", "pinterest"]

  /** Lower-case markers whose joint absence makes a User-Agent suspicious. */
  const BrowserIndicators: seq<string> := ["mozilla", "chrome", "safari", "firefox", "edge", "line"]

  datatype BotType = FacebookCrawler | Googlebot | UnknownBot | FacebookBot | TwitterBot | LinkedinBot | GenericBot

  /** The name the detector reports for a bot type. */
  function BotTypeName(t: BotType): string {
    match t
    case FacebookCrawler => "facebook_crawler"
    case Googlebot => "googlebot"
    case UnknownBot => "unknown_bot"
    case FacebookBot => "facebook_bot"
    case TwitterBot => "twitterbot"
    case LinkedinBot => "linkedinbot"
    case GenericBot => "generic_bot"
  }

  predicate AnyPrefix(s: string, prefixes: seq<string>) {
    exists k | 0 <= k < |prefixes| :: StartsWith(s, prefixes[k])
  }

  predicate AnyMarker(ua: string, patterns: seq<string>) {
    exists k | 0 <= k < |patterns| :: ContainsCI(ua, patterns[k])
  }

  predicate SocialApp(ua: string) {
    AnyMarker(ua, SocialAppPatterns)
  }

  /** A Facebook crawler marker together with the app's own case-sensitive FBAN/FBAV token. */
  predicate FacebookAppException(ua: string) {
    ContainsCI(ua, "facebookexternalhit") && (Contains(ua, "FBAN") || Contains(ua, "FBAV"))
  }

  /** The running state of the detector: confidence, bot type and the reasons given. */
  datatype Scan = Scan(confidence: int, botType: Option<BotType>, reasons: seq<string>)

  /** The address rule: +80 once for a listed prefix, naming the crawler family. */
  function IpStep(ip: string, s: Scan): (r: Scan)
    ensures !AnyPrefix(ip, BotIpPrefixes) ==> r == s
    ensures AnyPrefix(ip, BotIpPrefixes) ==> r.confidence == s.confidence + 80 && r.botType.Some?
    ensures AnyPrefix(ip, FacebookIpPrefixes) ==> r.botType == Some(FacebookCrawler)
  {
    assert AnyPrefix(ip, FacebookIpPrefixes) ==> AnyPrefix(ip, BotIpPrefixes) by {
      assert forall k :: 0 <= k < 3 ==> FacebookIpPrefixes[k] == BotIpPrefixes[k];
    }
    if !AnyPrefix(ip, BotIpPrefixes) then s
    else if AnyPrefix(ip, FacebookIpPrefixes) then
        Scan(s.confidence + 80, Some(FacebookCrawler), s.reasons + ["Facebook crawler IP detected"])
      else if AnyPrefix(ip, GoogleIpPrefixes) then
        Scan(s.confidence + 80, Some(Googlebot), s.reasons + ["Google bot IP detected"])
      else
        Scan(s.confidence + 80, Some(UnknownBot), s.reasons + ["Known bot IP pattern detected"])
  }

  /** A bot type named from the User-Agent, with the reason given for it. */
  datatype Naming = Naming(botType: BotType, reason: string)

  /**
   * The bot type a User-Agent names when the address named none: Facebook
   * and Twitter are named only outside the whitelist, Google and LinkedIn
   * always, and a generic bot only outside the whitelist.
   */
  function UaBotType(ua: string, social: bool): (n: Option<Naming>)
    ensures n.None? <==> social && !ContainsCI(ua, "google") && !ContainsCI(ua, "linkedin")
    ensures social && n.Some? ==> n.value.botType in {Googlebot, LinkedinBot}
    ensures n.Some? && n.value.botType == Googlebot ==> ContainsCI(ua, "google")
    ensures n.Some? && n.value.botType == LinkedinBot ==> ContainsCI(ua, "linkedin")
    ensures n.Some? ==> n.value.botType !in {FacebookCrawler, UnknownBot}
  {
    if ContainsCI(ua, "facebook") && !social then Some(Naming(FacebookBot, "Facebook bot User-Agent"))
    else if ContainsCI(ua, "google") then Some(Naming(Googlebot, "Google bot User-Agent"))
    else if ContainsCI(ua, "twitter") && !social then Some(Naming(TwitterBot, "Twitter bot User-Agent"))
    else if ContainsCI(ua, "linkedin") then Some(Naming(LinkedinBot, "LinkedIn bot User-Agent"))
    else if !social then Some(Naming(GenericBot, "Generic bot User-Agent pattern"))
    else None
  }

  /** The reason the first matching bot pattern gives, by whitelist. */
  function VerdictReason(social: bool): string {
    if social then "Bot pattern matched but ignored due to Social App Whitelist"
    else "Bot User-Agent pattern confirmed"
  }

  /**
   * The first matching bot pattern's verdict: +60 unless social, and, when no
   * bot type is known yet, the type the User-Agent names with its reason.
   */
  function Confirm(ua: string, social: bool, s: Scan): (r: Scan)
    ensures r.confidence == s.confidence + (if social then 0 else 60)
    ensures s.botType.Some? ==> r.botType == s.botType && r.reasons == s.reasons + [VerdictReason(social)]
    ensures s.botType.None? ==>
      var n := UaBotType(ua, social);
      && r.botType == (if n.Some? then Some(n.value.botType) else None)
      && r.reasons == s.reasons + [VerdictReason(social)] + (if n.Some? then [n.value.reason] else [])
  {
    var s1 := if !social then s.(confidence := s.confidence + 60, reasons := s.reasons + [VerdictReason(social)])
              else s.(reasons := s.reasons + [VerdictReason(social)]);
    if s1.botType.Some? then s1
    else match UaBotType(ua, social)
      case None => s1
      case Some(n) => s1.(botType := Some(n.botType), reasons := s1.reasons + [n.reason])
  }

  /** How many of `patterns` the User-Agent matches. */
  function CountMarkers(ua: string, patterns: seq<string>): (n: nat)
    ensures n <= |patterns|
    ensures n == 0 <==> !AnyMarker(ua, patterns)
  {
    if patterns == [] then 0
    else
      var rest := CountMarkers(ua, patterns[1..]);
      assert forall k :: 1 <= k < |patterns| ==> patterns[1..][k - 1] == patterns[k];
      assert AnyMarker(ua, patterns[1..]) ==> AnyMarker(ua, patterns) by {
        if AnyMarker(ua, patterns[1..]) {
          var k :| 0 <= k < |patterns[1..]| && ContainsCI(ua, patterns[1..][k]);
          assert ContainsCI(ua, patterns[k + 1]);
        }
      }
      (if ContainsCI(ua, patterns[0]) then 1 else 0) + rest
  }

  /**
   * The loop over the bot patterns from `patterns` on: under the Facebook-app
   * exception every matching pattern subtracts 30 and the loop goes on;
   * otherwise the first matching pattern is confirmed and the loop stops.
   */
  function UaScan(ua: string, social: bool, patterns: seq<string>, s: Scan): (r: Scan)
    ensures FacebookAppException(ua) ==>
      && r.confidence == s.confidence - 30 * CountMarkers(ua, patterns) && r.botType == s.botType
      && r.reasons == s.reasons + Repeat("Facebook App user detected", CountMarkers(ua, patterns))
    ensures !FacebookAppException(ua) && !AnyMarker(ua, patterns) ==> r == s
    ensures !FacebookAppException(ua) && AnyMarker(ua, patterns) ==> r == Confirm(ua, social, s)
    ensures s.botType.Some? ==> r.botType == s.botType
    decreases |patterns|
  {
    if patterns == [] then s
    else
      assert forall k :: 1 <= k < |patterns| ==> patterns[1..][k - 1] == patterns[k];
      assert AnyMarker(ua, patterns[1..]) ==> AnyMarker(ua, patterns) by {
        if AnyMarker(ua, patterns[1..]) {
          var k :| 0 <= k < |patterns[1..]| && ContainsCI(ua, patterns[1..][k]);
          assert ContainsCI(ua, patterns[k + 1]);
        }
      }
      if ContainsCI(ua, patterns[0]) then
        if FacebookAppException(ua) then
          var s1 := s.(confidence := s.confidence - 30, reasons := s.reasons + ["Facebook App user detected"]);
          var r := UaScan(ua, social, patterns[1..], s1);
          RepeatCons("Facebook App user detected", CountMarkers(ua, patterns[1..]));
          assert s1.reasons + Repeat("Facebook App user detected", CountMarkers(ua, patterns[1..]))
              == s.reasons + (["Facebook App user detected"] + Repeat("Facebook App user detected", CountMarkers(ua, patterns[1..])));
          r
        else Confirm(ua, social, s)
      else UaScan(ua, social, patterns[1..], s)
  }

  /** `n` copies of a reason. */
  function Repeat(x: string, n: nat): (r: seq<string>)
    ensures |r| == n && forall k :: 0 <= k < n ==> r[k] == x
  {
    if n == 0 then [] else Repeat(x, n - 1) + [x]
  }

  lemma {:induction false} RepeatCons(x: string, n: nat)
    ensures [x] + Repeat(x, n) == Repeat(x, n + 1)
  {
    assert |[x] + Repeat(x, n)| == n + 1;
    assert forall k :: 0 <= k < n + 1 ==> ([x] + Repeat(x, n))[k] == x;
  }

  /** The two heuristics: +10 for a User-Agent under 20 characters, +20 without any browser indicator. */
  function Heuristics(ua: string, s: Scan): (r: Scan)
    ensures r.botType == s.botType
    ensures r.confidence == s.confidence + (if |ua| < 20 then 10 else 0)
                                        + (if !AnyMarker(ua, BrowserIndicators) then 20 else 0)
    ensures r.reasons == s.reasons + (if |ua| < 20 then ["Suspiciously short User-Agent"] else [])
                                   + (if !AnyMarker(ua, BrowserIndicators) then ["Missing common browser indicators"] else [])
  {
    var s1 := if |Lower(ua)| < 20 then s.(confidence := s.confidence + 10, reasons := s.reasons + ["Suspiciously short User-Agent"]) else s;
    if !AnyMarker(ua, BrowserIndicators) then
      s1.(confidence := s1.confidence + 20, reasons := s1.reasons + ["Missing common browser indicators"])
    else s1
  }

  /** The detector's verdict. */
  datatype Detection = Detection(isBot: bool, botType: Option<BotType>, confidence: int, reasons: seq<string>)

  /** The whole User-Agent part: whitelist, pattern loop, heuristics. */
  function UaStep(ua: string, s: Scan): Scan {
    var social := SocialApp(ua);
    var s1 := if social then s.(confidence := s.confidence - 50, reasons := s.reasons + ["Social In-App Browser detected (Whitelist)"]) else s;
    Heuristics(ua, UaScan(ua, social, BotUaPatterns, s1))
  }

  /**
   * What the User-Agent rules say about the bot type when the address named
   * none: only the first matching crawler pattern outside the app exception
   * names one, and then the verdict's reason and the naming reason are given.
   */
  predicate UaNaming(ua: string, botType: Option<BotType>, reasons: seq<string>) {
    if !FacebookAppException(ua) && AnyMarker(ua, BotUaPatterns) then
      var n := UaBotType(ua, SocialApp(ua));
      && botType == (if n.Some? then Some(n.value.botType) else None)
      && VerdictReason(SocialApp(ua)) in reasons
      && (n.Some? ==> n.value.reason in reasons)
    else botType.None?
  }

  /**
   * With no bot type yet, the User-Agent rules name one as `UaNaming` says.
   */
  lemma UaStepNaming(ua: string, s: Scan)
    ensures s.botType.None? ==> var r := UaStep(ua, s); UaNaming(ua, r.botType, r.reasons)
  {
    if s.botType.None? {
      var social := SocialApp(ua);
      var s1 := if social then s.(confidence := s.confidence - 50, reasons := s.reasons + ["Social In-App Browser detected (Whitelist)"]) else s;
      var u := UaScan(ua, social, BotUaPatterns, s1);
      ScanNaming(ua, s1);
      NamingExtends(ua, u.botType, u.reasons, Heuristics(ua, u).reasons);
    }
  }

  /** The pattern loop, started with no bot type, names one as `UaNaming` says. */
  lemma ScanNaming(ua: string, s: Scan)
    requires s.botType.None?
    ensures var u := UaScan(ua, SocialApp(ua), BotUaPatterns, s); UaNaming(ua, u.botType, u.reasons)
  {
    var social := SocialApp(ua);
    if !FacebookAppException(ua) && AnyMarker(ua, BotUaPatterns) {
      var n := UaBotType(ua, social);
      var c := Confirm(ua, social, s);
      assert c.reasons[|s.reasons|] == VerdictReason(social);
      if n.Some? {
        assert c.reasons[|s.reasons| + 1] == n.value.reason;
      }
    }
  }

  /** Reasons added later do not undo a naming. */
  lemma NamingExtends(ua: string, botType: Option<BotType>, reasons: seq<string>, more: seq<string>)
    requires UaNaming(ua, botType, reasons) && reasons <= more
    ensures UaNaming(ua, botType, more)
  {
    forall x | x in reasons
      ensures x in more
    {
      var i :| 0 <= i < |reasons| && reasons[i] == x;
      assert more[i] == x;
    }
  }

  /**
   * `detectBot`: the address rule (when there is an address), the User-Agent
   * rules (when there is a User-Agent), confidence capped at 100 but not
   * below, and a bot verdict from 50 up.
   */
  function DetectBot(ip: Option<string>, userAgent: Option<string>): (r: Detection)
    ensures r.confidence <= 100
    ensures r.isBot <==> r.confidence >= 50
    ensures !Truthy(ip) && !Truthy(userAgent) ==> r == Detection(false, None, 0, [])
    ensures Truthy(ip) && AnyPrefix(ip.value, BotIpPrefixes) ==> r.botType.Some?
    ensures Truthy(ip) && AnyPrefix(ip.value, FacebookIpPrefixes) ==> r.botType == Some(FacebookCrawler)
    ensures !(Truthy(ip) && AnyPrefix(ip.value, BotIpPrefixes)) && Truthy(userAgent) ==>
      UaNaming(userAgent.value, r.botType, r.reasons)
    ensures !(Truthy(ip) && AnyPrefix(ip.value, BotIpPrefixes)) && !Truthy(userAgent) ==> r.botType.None?
  {
    var s0 := Scan(0, None, []);
    var s1 := if Truthy(ip) then IpStep(ip.value, s0) else s0;
    var s2 := if Truthy(userAgent) then UaStepNaming(userAgent.value, s1); UaStep(userAgent.value, s1) else s1;
    var c := if s2.confidence < 100 then s2.confidence else 100;
    Detection(c >= 50, s2.botType, c, s2.reasons)
  }

  /** The reason text: the reasons joined by "; ", or the normal-user text when there are none. */
  function ReasonText(d: Detection): (t: string)
    ensures d.reasons == [] ==> t == "Normal user detected"
    ensures d.reasons != [] ==> t == JoinReasons(d.reasons)
    ensures forall k :: 0 <= k < |d.reasons| ==> Contains(t, d.reasons[k])
  {
    if d.reasons == [] then "Normal user detected" else JoinReasons(d.reasons)
  }

  /** `parts.join('; ')` for a non-empty list: one part alone, and every part occurs in the text. */
  function JoinReasons(parts: seq<string>): (r: string)
    requires |parts| >= 1
    ensures |parts| == 1 ==> r == parts[0]
    ensures StartsWith(r, parts[0])
    ensures forall k :: 0 <= k < |parts| ==> Contains(r, parts[k])
  {
    if |parts| == 1 then
      StartsWithContains(parts[0], parts[0]);
      parts[0]
    else
      var rest := JoinReasons(parts[1..]);
      var r := parts[0] + "; " + rest;
      assert r[..|parts[0]|] == parts[0];
      StartsWithContains(r, parts[0]);
      ContainsAt(r, rest, |parts[0]| + 2);
      forall k | 1 <= k < |parts|
        ensures Contains(r, parts[k])
      {
        assert parts[1..][k - 1] == parts[k];
        ContainsTrans(r, rest, parts[k]);
      }
      r
  }

  const GooglebotUa: string := "Googlebot/2.1"

  /**
   * A bare Google crawler User-Agent, seen without an address: a bot named by
   * its User-Agent, for the stated reasons in the order they are found.
   */
  lemma GooglebotNamedByUserAgent()
    ensures var d := DetectBot(None, Some(GooglebotUa));
      && d.isBot && d.botType == Some(Googlebot) && d.confidence == 90
      && d.reasons == ["Bot User-Agent pattern confirmed", "Google bot User-Agent",
                       "Suspiciously short User-Agent", "Missing common browser indicators"]
  {
    var g := GooglebotUa;
    GooglebotFacts();
    var u := Scan(60, Some(Googlebot), ["Bot User-Agent pattern confirmed", "Google bot User-Agent"]);
    assert UaScan(g, false, BotUaPatterns, Scan(0, None, [])) == u;
    assert UaStep(g, Scan(0, None, [])) == Heuristics(g, u);
  }

  /** What the User-Agent rules see in the bare Google crawler User-Agent. */
  lemma GooglebotFacts()
    ensures !SocialApp(GooglebotUa) && !FacebookAppException(GooglebotUa)
    ensures !AnyMarker(GooglebotUa, BrowserIndicators) && |GooglebotUa| < 20
    ensures AnyMarker(GooglebotUa, BotUaPatterns)
    ensures UaBotType(GooglebotUa, false) == Some(Naming(Googlebot, "Google bot User-Agent"))
  {
    GooglebotLower();
    GooglebotNotSocial();
    GooglebotNoIndicators();
    var l := "googlebot/2.1";
    MissingCharNotContained(l, "facebookexternalhit", 'f');
    MissingCharNotContained(l, "facebook", 'f');
    assert l[..6] == "google";
    StartsWithContains(l, "google");
    assert l[6..9] == BotUaPatterns[0];
    ContainsAt(l, BotUaPatterns[0], 6);
  }

  lemma GooglebotLower()
    ensures Lower(GooglebotUa) == "googlebot/2.1"
  {
    var l := "googlebot/2.1";
    assert forall i :: 0 <= i < |l| ==> Lower(GooglebotUa)[i] == l[i];
  }

  lemma GooglebotNotSocial()
    ensures forall k :: 0 <= k < |SocialAppPatterns| ==> !Contains("googlebot/2.1", SocialAppPatterns[k])
  {
    var l := "googlebot/2.1";
    assert 'r' !in l && 'f' !in l && 'i' !in l;
    forall k | 0 <= k < |SocialAppPatterns|
      ensures !Contains(l, SocialAppPatterns[k])
    {
      var c := if k == 1 then 'r' else if k == 2 || k == 3 then 'f' else 'i';
      assert c in SocialAppPatterns[k];
      MissingCharNotContained(l, SocialAppPatterns[k], c);
    }
  }

  lemma GooglebotNoIndicators()
    ensures forall k :: 0 <= k < |BrowserIndicators| ==> !Contains("googlebot/2.1", BrowserIndicators[k])
  {
    var l := "googlebot/2.1";
    assert 'r' !in l && 'f' !in l && 'i' !in l && 's' !in l && 'z' !in l && 'd' !in l;
    forall k | 0 <= k < |BrowserIndicators|
      ensures !Contains(l, BrowserIndicators[k])
    {
      var c := [ 'z', 'r', 's', 'f', 'd', 'i' ][k];
      assert c in BrowserIndicators[k];
      MissingCharNotContained(l, BrowserIndicators[k], c);
    }
  }

  /** No address and no User-Agent: a normal user, for the stated reason. */
  lemma NothingIsNormal()
    ensures var d := DetectBot(None, Some(""));
      !d.isBot && d.botType.None? && d.confidence == 0 && ReasonText(d) == "Normal user detected"
  {
  }

  /** `isBot`. */
  function IsBot(ip: Option<string>, userAgent: Option<string>): (b: bool)
    ensures b <==> DetectBot(ip, userAgent).confidence >= 50
  {
    DetectBot(ip, userAgent).isBot
  }

  /** The App's own FBAN/FBAV token overrides every crawler signal: never a bot, at most 20. */
  lemma FacebookAppIsHuman(ip: Option<string>, ua: string)
    requires ua != "" && FacebookAppException(ua)
    ensures DetectBot(ip, Some(ua)).confidence <= 20
    ensures !DetectBot(ip, Some(ua)).isBot
  {
    var s0 := Scan(0, None, []);
    var s1 := if Truthy(ip) then IpStep(ip.value, s0) else s0;
    assert s1.confidence <= 80;
    ExceptionCostsSixty(ua, s1);
  }

  /** Under the app exception the User-Agent rules take away at least 60. */
  lemma ExceptionCostsSixty(ua: string, s: Scan)
    requires FacebookAppException(ua)
    ensures UaStep(ua, s).confidence <= s.confidence - 60
  {
    ExceptionHasCrawlerMarker(ua);
    ExceptionIsSocial(ua);
    ShortUaHasNoException(ua);
    var s1 := s.(confidence := s.confidence - 50, reasons := s.reasons + ["Social In-App Browser detected (Whitelist)"]);
    var s2 := UaScan(ua, true, BotUaPatterns, s1);
    assert UaStep(ua, s) == Heuristics(ua, s2);
  }

  /** The crawler marker of the exception is itself one of the crawler patterns. */
  lemma ExceptionHasCrawlerMarker(ua: string)
    requires FacebookAppException(ua)
    ensures CountMarkers(ua, BotUaPatterns) >= 1
  {
    assert ContainsCI(ua, BotUaPatterns[11]);
  }

  /** The app's FBAN/FBAV token is itself a whitelist marker. */
  lemma ExceptionIsSocial(ua: string)
    requires FacebookAppException(ua)
    ensures SocialApp(ua)
  {
    AppTokensLowered();
    if Contains(ua, "FBAN") {
      LowerContains(ua, "FBAN");
      assert ContainsCI(ua, SocialAppPatterns[3]);
    } else {
      LowerContains(ua, "FBAV");
      assert ContainsCI(ua, SocialAppPatterns[2]);
    }
  }

  lemma AppTokensLowered()
    ensures Lower("FBAN") == "fban" && Lower("FBAV") == "fbav"
  {
    assert Lower("FBAN") == "fban";
    assert Lower("FBAV") == "fbav";
  }

  /** The crawler marker and the app token do not fit in fewer than 20 characters. */
  lemma ShortUaHasNoException(ua: string)
    ensures |ua| < 20 ==> !FacebookAppException(ua)
  {
    if |ua| < 20 && ContainsCI(ua, "facebookexternalhit") {
      var i :| 0 <= i <= |Lower(ua)| && OccursAt(Lower(ua), "facebookexternalhit", i);
      assert Lower(ua) == "facebookexternalhit";
      NoUpperAfterLower(ua, "FBAN");
      NoUpperAfterLower(ua, "FBAV");
    }
  }

  /** An upper-case marker found in `s` appears lower-cased in `Lower(s)`. */
  lemma LowerContains(s: string, t: string)
    requires Contains(s, t)
    ensures Contains(Lower(s), Lower(t))
  {
    var i :| 0 <= i <= |s| && OccursAt(s, t, i);
    assert Lower(s)[i..i + |t|] == Lower(t);
    assert OccursAt(Lower(s), Lower(t), i);
  }

  /** A string whose lower-cased form is the crawler marker contains no FBAN/FBAV token. */
  lemma NoUpperAfterLower(s: string, t: string)
    requires Lower(s) == "facebookexternalhit"
    requires t == "FBAN" || t == "FBAV"
    ensures !Contains(s, t)
  {
    assert forall i :: 0 <= i < |s| - 1 ==> !(Lower(s)[i] == 'f' && Lower(s)[i + 1] == 'b');
    forall i | 0 <= i <= |s| - |t|
      ensures !OccursAt(s, t, i)
    {
      assert !(s[i] == 'F' && s[i + 1] == 'B');
      assert s[i..i + |t|][0] == s[i];
    }
  }

  /** A crawler User-Agent with no whitelist marker and no app exception is always a bot. */
  lemma CrawlerUaIsBot(ip: Option<string>, ua: string)
    requires ua != "" && AnyMarker(ua, BotUaPatterns)
    requires !SocialApp(ua) && !FacebookAppException(ua)
    ensures DetectBot(ip, Some(ua)).isBot
  {
  }

  /** A whitelisted in-app browser never earns the +60 crawler confirmation. */
  lemma SocialAppNeverConfirmed(ua: string, s: Scan)
    requires SocialApp(ua) && !FacebookAppException(ua)
    ensures UaScan(ua, true, BotUaPatterns, s).confidence == s.confidence
  {
  }

  /** Confidence is not clamped below: an ordinary in-app browser scores −50. */
  lemma ConfidenceCanBeNegative(ua: string)
    requires SocialApp(ua) && !AnyMarker(ua, BotUaPatterns)
    requires |ua| >= 20 && Contains(Lower(ua), "mozilla")
    ensures DetectBot(None, Some(ua)).confidence == -50
  {
    NoCrawlerMarkerNoException(ua);
    MozillaIsBrowser(ua);
    SocialUaStep(ua, Scan(0, None, []));
  }

  lemma NoCrawlerMarkerNoException(ua: string)
    requires !AnyMarker(ua, BotUaPatterns)
    ensures !FacebookAppException(ua)
  {
    assert !ContainsCI(ua, BotUaPatterns[11]);
  }

  lemma MozillaIsBrowser(ua: string)
    requires Contains(Lower(ua), "mozilla")
    ensures AnyMarker(ua, BrowserIndicators)
  {
    assert ContainsCI(ua, BrowserIndicators[0]);
  }

  /** A whitelisted, crawler-free, browser-like User-Agent of normal length only loses the whitelist's 50. */
  lemma SocialUaStep(ua: string, s: Scan)
    requires SocialApp(ua) && !AnyMarker(ua, BotUaPatterns) && !FacebookAppException(ua)
    requires |ua| >= 20 && AnyMarker(ua, BrowserIndicators)
    ensures UaStep(ua, s).confidence == s.confidence - 50
  {
    var s1 := s.(confidence := s.confidence - 50, reasons := s.reasons + ["Social In-App Browser detected (Whitelist)"]);
    assert UaScan(ua, true, BotUaPatterns, s1) == s1;
  }

  // ---------------------------------------------------------------------------
  // filterBotVisits and getBotStats
  // ---------------------------------------------------------------------------

  predicate VisitIsBot(v: Visit) {
    IsBot(v.visitorIp, v.userAgent)
  }

  /**
   * `filterBotVisits`: the non-bot visits in their original order; a value
   * that is not a list (`None`) comes back unchanged.
   */
  function FilterBotVisits(visits: Option<seq<Visit>>): (r: Option<seq<Visit>>)
    ensures visits.None? <==> r.None?
    ensures visits.Some? ==> |r.value| <= |visits.value|
    ensures visits.Some? ==> forall v :: v in r.value <==> v in visits.value && !VisitIsBot(v)
  {
    match visits
    case None => None
    case Some(vs) => Some(Humans(vs))
  }

  function Humans(vs: seq<Visit>): (r: seq<Visit>)
    ensures |r| <= |vs|
    ensures forall v :: v in r <==> v in vs && !VisitIsBot(v)
  {
    if vs == [] then []
    else (if VisitIsBot(vs[0]) then [] else [vs[0]]) + Humans(vs[1..])
  }

  /**
   * The filter keeps order: filtering a concatenation concatenates the
   * filtered parts, and a single visit is kept exactly when it is not a bot.
   */
  lemma {:induction false} HumansPreservesOrder(a: seq<Visit>, b: seq<Visit>, v: Visit)
    ensures Humans(a + b) == Humans(a) + Humans(b)
    ensures Humans([v]) == if VisitIsBot(v) then [] else [v]
    decreases |a|
  {
    HumansOfOne(v);
    if a == [] {
      assert a + b == b;
    } else {
      var head := if VisitIsBot(a[0]) then [] else [a[0]];
      assert (a + b)[0] == a[0];
      assert (a + b)[1..] == a[1..] + b;
      assert Humans(a + b) == head + Humans(a[1..] + b);
      assert Humans(a) == head + Humans(a[1..]);
      HumansPreservesOrder(a[1..], b, v);
      ConcatAssoc(head, Humans(a[1..]), Humans(b));
    }
  }

  lemma HumansOfOne(v: Visit)
    ensures Humans([v]) == if VisitIsBot(v) then [] else [v]
  {
    assert [v][1..] == [];
  }

  lemma ConcatAssoc(x: seq<Visit>, y: seq<Visit>, z: seq<Visit>)
    ensures x + (y + z) == (x + y) + z
  {
  }

  /** Bot counts per reported type, in first-seen order. */
  type TypeCounts = seq<(string, nat)>

  function CountsSum(m: TypeCounts): nat {
    if m == [] then 0 else m[0].1 + CountsSum(m[1..])
  }

  function Keys(m: TypeCounts): set<string> {
    if m == [] then {} else {m[0].0} + Keys(m[1..])
  }

  /** No type is counted under two entries. */
  predicate KeysUnique(m: TypeCounts) {
    m == [] || (m[0].0 !in Keys(m[1..]) && KeysUnique(m[1..]))
  }

  /** `counts[t] || 0`: the count listed under the type, zero when it has none. */
  function CountOf(m: TypeCounts, t: string): nat {
    if m == [] then 0 else if m[0].0 == t then m[0].1 else CountOf(m[1..], t)
  }

  /** `counts[key] = (counts[key] || 0) + 1` on an insertion-ordered object. */
  function Increment(m: TypeCounts, key: string): (r: TypeCounts)
    ensures CountsSum(r) == CountsSum(m) + 1
    ensures Keys(r) == Keys(m) + {key}
    ensures KeysUnique(m) ==> KeysUnique(r)
    ensures key !in Keys(m) ==> r == m + [(key, 1)]
    ensures CountOf(r, key) == CountOf(m, key) + 1
    ensures forall t :: t != key ==> CountOf(r, t) == CountOf(m, t)
  {
    if m == [] then [(key, 1)]
    else if m[0].0 == key then
      var r := [(key, m[0].1 + 1)] + m[1..];
      assert r[1..] == m[1..];
      r
    else
      var r := [m[0]] + Increment(m[1..], key);
      assert r[1..] == Increment(m[1..], key);
      r
  }

  datatype BotStats = BotStats(total: nat, bots: nat, humans: nat, botTypes: TypeCounts)

  /** The reported name of a detected bot's type, "unknown" when it has none. */
  function TypeKey(d: Detection): string {
    match d.botType
    case Some(t) => BotTypeName(t)
    case None => "unknown"
  }

  /** The number of visits detected as bots of the reported type `t`. */
  function BotsOfType(vs: seq<Visit>, t: string): nat
    decreases |vs|
  {
    if vs == [] then 0
    else
      var d := DetectBot(vs[0].visitorIp, vs[0].userAgent);
      (if d.isBot && TypeKey(d) == t then 1 else 0) + BotsOfType(vs[1..], t)
  }

  function Tally(vs: seq<Visit>, acc: BotStats): (r: BotStats)
    ensures r.bots + r.humans == acc.bots + acc.humans + |vs|
    ensures forall t :: CountOf(r.botTypes, t) == CountOf(acc.botTypes, t) + BotsOfType(vs, t)
    ensures CountsSum(acc.botTypes) == acc.bots ==> CountsSum(r.botTypes) == r.bots
    ensures KeysUnique(acc.botTypes) ==> KeysUnique(r.botTypes)
    ensures r.total == acc.total
    ensures r.humans == acc.humans + |Humans(vs)|
    decreases |vs|
  {
    if vs == [] then acc
    else
      var d := DetectBot(vs[0].visitorIp, vs[0].userAgent);
      var next := if d.isBot then acc.(bots := acc.bots + 1, botTypes := Increment(acc.botTypes, TypeKey(d)))
                  else acc.(humans := acc.humans + 1);
      Tally(vs[1..], next)
  }

  /**
   * `getBotStats`: all zero for a missing or empty list; otherwise the total,
   * the bot and human counts and the per-type bot counts.
   */
  function GetBotStats(visits: Option<seq<Visit>>): (r: BotStats)
    ensures visits.None? || visits.value == [] ==> r == BotStats(0, 0, 0, [])
    ensures r.bots + r.humans == r.total
    ensures visits.Some? ==> r.total == |visits.value|
    ensures CountsSum(r.botTypes) == r.bots
    ensures KeysUnique(r.botTypes)
    ensures forall t :: CountOf(r.botTypes, t) == (if visits.Some? then BotsOfType(visits.value, t) else 0)
  {
    match visits
    case None => BotStats(0, 0, 0, [])
    case Some(vs) =>
      if vs == [] then BotStats(0, 0, 0, [])
      else Tally(vs, BotStats(|vs|, 0, 0, []))
  }

  /** The humans the statistics count are exactly the visits the filter keeps. */
  lemma StatsAgreeWithFilter(visits: seq<Visit>)
    ensures GetBotStats(Some(visits)).humans == |FilterBotVisits(Some(visits)).value|
  {
  }
}
