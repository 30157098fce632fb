/**
 * The attribution matcher: which recent tracking visit (or browser session) a
 * LINE user who has just followed the account is credited to.
 *
 * Three webhooks score candidate visits the same additive way and differ only
 * in a `Config`: the official-site domains that earn the referrer penalty,
 * whether the +3 browser-family match needs a known family, and whether the
 * +10 address match needs a non-empty stored address. Each candidate visit is
 * an unmatched row at most ten minutes old; the query returns them newest
 * first, and the winner is the first visit with the highest score, accepted
 * only above zero. The main webhook first tries the newest unmatched browser
 * session of the last two hours.
 *
 * Visit ages are non-negative real minutes; session times are integer
 * milliseconds. Reads are inputs, writes are returned.
 */
module Attribution {
  import opened Wrappers
  import opened JsText
  import opened LineCommon

  // ---------------------------------------------------------------------------
  // Data
  // ---------------------------------------------------------------------------

  /** A row of `agency_tracking_visits`, with its age at the time of the follow. */
  datatype Visit = Visit(
    id: string,
    visitorIp: Option<string>,
    userAgent: Option<string>,
    ageMinutes: real,
    sessionId: Option<string>,
    trackingLinkId: Option<string>,
    agencyId: Option<string>,
    browser: Option<string>,
    referrer: Option<string>,
    lineUserId: Option<string>)

  /** The per-webhook knobs of the scoring rule. */
  datatype Config = Config(
    officialDomains: seq<string>,
    browserNeedsKnown: bool,
    ipNeedsVisitorIp: bool)

  /** line-webhook-taskmate.js */
  const TaskmateConfig := Config(["taskmateai.net", "agency.ikemen.ltd"], false, false)

  /** line-webhook-subsidy.js */
  const SubsidyConfig := Config(["subsidy-navigator.jp", "agency.ikemen.ltd"], false, false)

  /** line-webhook.js */
  const MainConfig := Config(["taskmateai.net", "agency.ikemen.ltd", "ikemen.ltd"], true, true)

  /** What the webhook request itself tells about the follower. */
  datatype Request = Request(ip: string, userAgent: string)

  /** The address from the proxy headers and the `user-agent` header, or "" without one. */
  function RequestOf(headers: map<string, string>): (r: Request)
    ensures r.ip == ClientIpFromHeaders(headers)
    ensures HeaderTruthy(headers, "user-agent") ==> r.userAgent == headers["user-agent"]
    ensures !HeaderTruthy(headers, "user-agent") ==> r.userAgent == ""
  {
    Request(ClientIpFromHeaders(headers),
            if HeaderTruthy(headers, "user-agent") then headers["user-agent"] else "")
  }

  // ---------------------------------------------------------------------------
  // Scoring
  // ---------------------------------------------------------------------------

  /** +10 when the stored address equals the request's, unless the request's is "unknown". */
  function IpPoints(cfg: Config, v: Visit, req: Request): (p: real)
    ensures p == 0.0 || p == 10.0
    ensures p == 10.0 <==>
      v.visitorIp == Some(req.ip) && req.ip != "unknown" && (cfg.ipNeedsVisitorIp ==> req.ip != "")
  {
    if v.visitorIp == Some(req.ip) && req.ip != "unknown" && (!cfg.ipNeedsVisitorIp || Truthy(v.visitorIp))
    then 10.0 else 0.0
  }

  /**
   * The User-Agent component, when both sides have one: 10 for equality up to
   * case, else 7 when both mention "line", else 3 for the same browser family
   * (a known one, when the config asks for it), else 0.
   */
  function UaPoints(cfg: Config, v: Visit, req: Request): (p: real)
    ensures p == 0.0 || p == 3.0 || p == 7.0 || p == 10.0
    ensures p != 0.0 ==> Truthy(v.userAgent) && req.userAgent != ""
    ensures p == 10.0 <==> Truthy(v.userAgent) && req.userAgent != "" && Lower(v.userAgent.value) == Lower(req.userAgent)
    ensures p == 7.0 ==> Contains(Lower(v.userAgent.value), "line") && Contains(Lower(req.userAgent), "line")
    ensures p == 3.0 ==>
      && ExtractBrowser(v.userAgent.value) == ExtractBrowser(req.userAgent)
      && (cfg.browserNeedsKnown ==> ExtractBrowser(req.userAgent) != UnknownBrowser)
  {
    if Truthy(v.userAgent) && req.userAgent != "" then
      var visitUa := Lower(v.userAgent.value);
      var webhookUa := Lower(req.userAgent);
      ExtractBrowserCaseInsensitive(v.userAgent.value);
      ExtractBrowserCaseInsensitive(req.userAgent);
      if visitUa == webhookUa then 10.0
      else if Contains(visitUa, "line") && Contains(webhookUa, "line") then 7.0
      else if ExtractBrowser(visitUa) == ExtractBrowser(webhookUa)
              && (!cfg.browserNeedsKnown || ExtractBrowser(visitUa) != UnknownBrowser) then 3.0
      else 0.0
    else 0.0
  }

  /** Recency: `max(0, 10 - age)`. */
  function TimePoints(ageMinutes: real): (p: real)
    ensures p >= 0.0 && p >= 10.0 - ageMinutes
    ensures ageMinutes >= 0.0 ==> p <= 10.0
    ensures p == 0.0 || p == 10.0 - ageMinutes
  {
    if 10.0 - ageMinutes > 0.0 then 10.0 - ageMinutes else 0.0
  }

  /** The referrer mentions one of the official-site domains. */
  predicate OfficialReferrer(cfg: Config, v: Visit) {
    Truthy(v.referrer)
      && exists k | 0 <= k < |cfg.officialDomains| :: Contains(v.referrer.value, cfg.officialDomains[k])
  }

  /** The −50 penalty: an official-site referrer on a visit without a tracking link. */
  predicate Penalized(cfg: Config, v: Visit) {
    OfficialReferrer(cfg, v) && !Truthy(v.trackingLinkId)
  }

  function Bonus(b: bool, points: real): real {
    if b then points else 0.0
  }

  /** The score of one candidate visit. */
  function Score(cfg: Config, v: Visit, req: Request): (s: real)
    ensures v.ageMinutes >= 0.0 ==> -50.0 <= s <= 70.0
    ensures v.ageMinutes >= 0.0 && Penalized(cfg, v) ==> s <= 5.0
    ensures !Penalized(cfg, v) ==> s >= 0.0
  {
    IpPoints(cfg, v, req) + UaPoints(cfg, v, req) + TimePoints(v.ageMinutes)
      + Bonus(Truthy(v.sessionId), 20.0)
      + Bonus(Truthy(v.trackingLinkId), 15.0)
      + Bonus(Truthy(v.browser), 5.0)
      - Bonus(Penalized(cfg, v), 50.0)
  }

  /** The tracking-link bonus and the official-site penalty never both apply. */
  lemma PenaltyExcludesLinkBonus(cfg: Config, v: Visit)
    ensures !(Penalized(cfg, v) && Truthy(v.trackingLinkId))
  {
  }

  /** A session id adds exactly 20 points, whatever else the visit carries. */
  lemma SessionAddsTwenty(cfg: Config, v: Visit, req: Request, sid: string)
    requires sid != ""
    ensures Score(cfg, v.(sessionId := Some(sid)), req) == Score(cfg, v.(sessionId := None), req) + 20.0
  {
  }

  /** A tracking link adds 15 points and lifts the penalty. */
  lemma TrackingLinkLiftsPenalty(cfg: Config, v: Visit, req: Request, link: string)
    requires link != ""
    ensures var without := v.(trackingLinkId := None);
      Score(cfg, v.(trackingLinkId := Some(link)), req)
        == Score(cfg, without, req) + 15.0 + Bonus(Penalized(cfg, without), 50.0)
  {
  }

  /**
   * Without a known family guard two unrelated User-Agents of unknown family
   * still earn the +3 family match; with the guard they earn nothing.
   */
  lemma UnknownFamiliesMatch(v: Visit, req: Request)
    requires Truthy(v.userAgent) && req.userAgent != ""
    requires Lower(v.userAgent.value) != Lower(req.userAgent)
    requires !Contains(Lower(v.userAgent.value), "line")
    requires ExtractBrowser(v.userAgent.value) == UnknownBrowser
    requires ExtractBrowser(req.userAgent) == UnknownBrowser
    ensures UaPoints(TaskmateConfig, v, req) == 3.0
    ensures UaPoints(SubsidyConfig, v, req) == 3.0
    ensures UaPoints(MainConfig, v, req) == 0.0
  {
    ExtractBrowserCaseInsensitive(v.userAgent.value);
    ExtractBrowserCaseInsensitive(req.userAgent);
  }

  /** The taskmate and subsidy scores agree unless the referrer names a service's own site. */
  lemma TaskmateSubsidyAgree(v: Visit, req: Request)
    requires !Truthy(v.referrer)
      || (!Contains(v.referrer.value, "taskmateai.net") && !Contains(v.referrer.value, "subsidy-navigator.jp"))
    ensures Score(TaskmateConfig, v, req) == Score(SubsidyConfig, v, req)
  {
    assert OfficialReferrer(TaskmateConfig, v) <==> OfficialReferrer(SubsidyConfig, v) by {
      if OfficialReferrer(TaskmateConfig, v) {
        assert Contains(v.referrer.value, SubsidyConfig.officialDomains[1]);
      }
      if OfficialReferrer(SubsidyConfig, v) {
        assert Contains(v.referrer.value, TaskmateConfig.officialDomains[1]);
      }
    }
  }

  /** The main webhook's rule is stricter everywhere: it never scores a visit above the taskmate rule. */
  lemma MainNeverScoresHigher(v: Visit, req: Request)
    ensures Score(MainConfig, v, req) <= Score(TaskmateConfig, v, req)
  {
    if Penalized(TaskmateConfig, v) {
      var k :| 0 <= k < 2 && Contains(v.referrer.value, TaskmateConfig.officialDomains[k]);
      assert Contains(v.referrer.value, MainConfig.officialDomains[k]);
    }
  }

  // ---------------------------------------------------------------------------
  // Selection
  // ---------------------------------------------------------------------------

  /** The running best of the scan: the chosen position (if any) and its score. */
  datatype Selection = Selection(index: Option<nat>, score: real)

  /** `i` holds the first maximum of `scores`, and it is above zero. */
  predicate FirstBest(scores: seq<real>, i: int) {
    && 0 <= i < |scores|
    && scores[i] > 0.0
    && (forall j :: 0 <= j < |scores| ==> scores[j] <= scores[i])
    && (forall j :: 0 <= j < i ==> scores[j] < scores[i])
  }

  /**
   * The scan over the first `n` scores that starts from a best score of 0 and
   * replaces the best only on a strictly greater score.
   */
  function SelectPrefix(scores: seq<real>, n: nat): (s: Selection)
    requires n <= |scores|
    ensures s.score >= 0.0
    ensures forall j :: 0 <= j < n ==> scores[j] <= s.score
    ensures s.index.None? ==> s.score == 0.0
    ensures s.index.Some? ==>
      && s.index.value < n
      && scores[s.index.value] == s.score > 0.0
      && (forall j :: 0 <= j < s.index.value ==> scores[j] < s.score)
  {
    if n == 0 then Selection(None, 0.0)
    else
      var p := SelectPrefix(scores, n - 1);
      if scores[n - 1] > p.score then Selection(Some(n - 1), scores[n - 1]) else p
  }

  /** The scan over all scores chooses exactly the first best position above zero. */
  function SelectBest(scores: seq<real>): (r: Option<nat>)
    ensures r.Some? ==> FirstBest(scores, r.value)
    ensures r.None? <==> forall j :: 0 <= j < |scores| ==> scores[j] <= 0.0
  {
    SelectPrefix(scores, |scores|).index
  }

  /** There is at most one first best position. */
  lemma FirstBestUnique(scores: seq<real>, i: int, j: int)
    requires FirstBest(scores, i) && FirstBest(scores, j)
    ensures i == j
  {
  }

  /** So the scan's choice is the first best position whenever one exists. */
  lemma SelectBestIsFirstBest(scores: seq<real>, i: int)
    requires FirstBest(scores, i)
    ensures SelectBest(scores) == Some(i)
  {
    assert scores[i] > 0.0;
    FirstBestUnique(scores, SelectBest(scores).value, i);
  }

  // ---------------------------------------------------------------------------
  // Candidates and the visit link-up
  // ---------------------------------------------------------------------------

  /** A visit the ten-minute query returns: not yet linked and at most ten minutes old. */
  predicate Candidate(v: Visit) {
    v.lineUserId.None? && v.ageMinutes <= 10.0
  }

  /** The candidate rows of a newest-first table, in the same order. */
  function Candidates(table: seq<Visit>): (c: seq<Visit>)
    ensures |c| <= |table|
    ensures forall v :: v in c <==> v in table && Candidate(v)
  {
    if table == [] then []
    else (if Candidate(table[0]) then [table[0]] else []) + Candidates(table[1..])
  }

  /**
   * The candidates keep the table's newest-first order: the candidates of a
   * concatenation are each part's in turn, and one visit is a candidate
   * exactly when it is recent and unlinked.
   */
  lemma {:induction false} CandidatesPreservesOrder(a: seq<Visit>, b: seq<Visit>, v: Visit)
    ensures Candidates(a + b) == Candidates(a) + Candidates(b)
    ensures Candidates([v]) == if Candidate(v) then [v] else []
    decreases |a|
  {
    assert [v][1..] == [];
    if a == [] {
      assert a + b == b;
    } else {
      var head := if Candidate(a[0]) then [a[0]] else [];
      assert (a + b)[0] == a[0];
      assert (a + b)[1..] == a[1..] + b;
      assert Candidates(a + b) == head + Candidates(a[1..] + b);
      assert Candidates(a) == head + Candidates(a[1..]);
      CandidatesPreservesOrder(a[1..], b, v);
      assert head + (Candidates(a[1..]) + Candidates(b)) == (head + Candidates(a[1..])) + Candidates(b);
    }
  }

  function Scores(cfg: Config, req: Request, c: seq<Visit>): (s: seq<real>)
    ensures |s| == |c|
    ensures forall i :: 0 <= i < |c| ==> s[i] == Score(cfg, c[i], req)
  {
    seq(|c|, i requires 0 <= i < |c| => Score(cfg, c[i], req))
  }

  /** The update `SET line_user_id = lineUserId WHERE id = visitId`. */
  datatype VisitLink = VisitLink(visitId: string, lineUserId: string)

  /** The visit credited to the follower (if any) and the write that records it. */
  datatype LinkResult = LinkResult(matched: Option<Visit>, write: Option<VisitLink>)

  const NoLink := LinkResult(None, None)

  /**
   * `linkUserToTracking` of the two service webhooks: score the candidates,
   * take the first best above zero and, when the update succeeds, return it.
   * A failed query, no candidate, no positive score or a failed update
   * returns null and changes nothing.
   */
  function LinkUserToVisit(cfg: Config, req: Request, lineUserId: string,
                           query: Query<seq<Visit>>, updateOk: bool): (r: LinkResult)
    ensures r.matched.Some? <==> r.write.Some?
    ensures r.write.Some? ==> r.write.value == VisitLink(r.matched.value.id, lineUserId)
    ensures query.QueryError? || !updateOk ==> r == NoLink
    ensures query.Rows? ==>
      var c := Candidates(query.rows);
      && (r.matched.Some? ==> exists i :: FirstBest(Scores(cfg, req, c), i) && r.matched.value == c[i])
      && (updateOk && (exists i :: 0 <= i < |c| && Score(cfg, c[i], req) > 0.0) ==> r.matched.Some?)
      && ((forall i :: 0 <= i < |c| ==> Score(cfg, c[i], req) <= 0.0) ==> r == NoLink)
  {
    match query
    case QueryError => NoLink
    case Rows(table) =>
      var c := Candidates(table);
      var scores := Scores(cfg, req, c);
      if c == [] then NoLink
      else
        match SelectBest(scores)
        case None =>
          assert forall i :: 0 <= i < |c| ==> Score(cfg, c[i], req) == scores[i] <= 0.0;
          NoLink
        case Some(i) =>
          assert FirstBest(scores, i);
          assert 0 <= i < |c| && Score(cfg, c[i], req) > 0.0;
          if updateOk then LinkResult(Some(c[i]), Some(VisitLink(c[i].id, lineUserId)))
          else NoLink
  }

  /** The chosen visit is an unlinked recent row that outscores or ties every other candidate. */
  lemma LinkedVisitIsBest(cfg: Config, req: Request, lineUserId: string, table: seq<Visit>, updateOk: bool)
    ensures var m := LinkUserToVisit(cfg, req, lineUserId, Rows(table), updateOk).matched;
      var c := Candidates(table);
      m.Some? ==>
        && m.value in table && Candidate(m.value) && Score(cfg, m.value, req) > 0.0
        && (forall v :: v in c ==> Score(cfg, v, req) <= Score(cfg, m.value, req))
  {
    var c := Candidates(table);
    var m := LinkUserToVisit(cfg, req, lineUserId, Rows(table), updateOk).matched;
    if m.Some? {
      var w := m.value;
      var i :| FirstBest(Scores(cfg, req, c), i) && w == c[i];
      forall v | v in c
        ensures Score(cfg, v, req) <= Score(cfg, w, req)
      {
        var j :| 0 <= j < |c| && c[j] == v;
        assert Scores(cfg, req, c)[j] <= Scores(cfg, req, c)[i];
      }
    }
  }

  /** `w` sits at position `i` of `c` and strictly outscores every candidate listed before it. */
  predicate BeatsEarlier(cfg: Config, req: Request, c: seq<Visit>, i: int, w: Visit) {
    && 0 <= i < |c|
    && c[i] == w
    && forall j :: 0 <= j < i ==> Score(cfg, c[j], req) < Score(cfg, w, req)
  }

  /** Among the candidates, the chosen visit strictly outscores every newer one listed before it. */
  lemma LinkedVisitBeatsNewer(cfg: Config, req: Request, lineUserId: string, table: seq<Visit>, updateOk: bool)
    ensures var m := LinkUserToVisit(cfg, req, lineUserId, Rows(table), updateOk).matched;
      m.Some? ==> exists i :: BeatsEarlier(cfg, req, Candidates(table), i, m.value)
  {
    var c := Candidates(table);
    var m := LinkUserToVisit(cfg, req, lineUserId, Rows(table), updateOk).matched;
    if m.Some? {
      var i :| FirstBest(Scores(cfg, req, c), i) && m.value == c[i];
      forall j | 0 <= j < i
        ensures Score(cfg, c[j], req) < Score(cfg, c[i], req)
      {
        assert Scores(cfg, req, c)[j] < Scores(cfg, req, c)[i];
      }
      assert BeatsEarlier(cfg, req, c, i, m.value);
    }
  }

  /** Apply a visit link to the table: only the rows with that id get the LINE user id. */
  function ApplyVisitLink(table: seq<Visit>, w: VisitLink): (t: seq<Visit>)
    ensures |t| == |table|
    ensures forall i :: 0 <= i < |table| && table[i].id != w.visitId ==> t[i] == table[i]
    ensures forall i :: 0 <= i < |table| && table[i].id == w.visitId ==>
      t[i] == table[i].(lineUserId := Some(w.lineUserId))
  {
    seq(|table|, i requires 0 <= i < |table| =>
      if table[i].id == w.visitId then table[i].(lineUserId := Some(w.lineUserId)) else table[i])
  }

  /** Once linked, a visit is never a candidate again, so no visit is credited twice. */
  lemma LinkedVisitLeavesPool(table: seq<Visit>, w: VisitLink, v: Visit)
    requires v in Candidates(ApplyVisitLink(table, w))
    ensures v.id != w.visitId
    ensures v in table
  {
    var t := ApplyVisitLink(table, w);
    var i :| 0 <= i < |t| && t[i] == v;
  }

  // ---------------------------------------------------------------------------
  // Tier 1 of the main webhook: the newest unmatched browser session
  // ---------------------------------------------------------------------------

  /** A row of `user_sessions`; times are milliseconds since the epoch. */
  datatype Session = Session(
    id: string,
    lineUserId: Option<string>,
    lastActivityAt: int,
    lineFriendAt: Option<int>,
    agencyId: Option<string>,
    trackingLinkId: Option<string>,
    visitId: Option<string>)

  /** Two hours, the session look-back window. */
  const SessionWindowMs: int := 2 * 60 * 60 * 1000

  predicate SessionEligible(s: Session, now: int) {
    s.lineUserId.None? && s.lastActivityAt >= now - SessionWindowMs
  }

  /** `i` is the first eligible session whose last activity is the newest among the eligible. */
  predicate NewestAt(sessions: seq<Session>, now: int, i: int) {
    && 0 <= i < |sessions|
    && SessionEligible(sessions[i], now)
    && (forall j :: 0 <= j < |sessions| && SessionEligible(sessions[j], now) ==>
          sessions[j].lastActivityAt <= sessions[i].lastActivityAt)
    && (forall j :: 0 <= j < i && SessionEligible(sessions[j], now) ==>
          sessions[j].lastActivityAt < sessions[i].lastActivityAt)
  }

  function NewestPrefix(sessions: seq<Session>, now: int, n: nat): (r: Option<nat>)
    requires n <= |sessions|
    ensures r.None? ==> forall j :: 0 <= j < n ==> !SessionEligible(sessions[j], now)
    ensures r.Some? ==> NewestAt(sessions[..n], now, r.value)
  {
    if n == 0 then None
    else
      var p := NewestPrefix(sessions, now, n - 1);
      assert forall j :: 0 <= j < n - 1 ==> sessions[..n][j] == sessions[..n - 1][j];
      if SessionEligible(sessions[n - 1], now)
         && (p.None? || sessions[n - 1].lastActivityAt > sessions[p.value].lastActivityAt)
      then Some(n - 1)
      else p
  }

  /**
   * The session the tier-1 query returns: unmatched, active within two hours,
   * newest last activity, the earliest row on a tie.
   */
  function NewestUnmatchedSession(sessions: seq<Session>, now: int): (r: Option<nat>)
    ensures r.None? <==> forall j :: 0 <= j < |sessions| ==> !SessionEligible(sessions[j], now)
    ensures r.Some? ==> NewestAt(sessions, now, r.value)
  {
    assert sessions[..|sessions|] == sessions;
    NewestPrefix(sessions, now, |sessions|)
  }

  /** The tier-1 update: LINE user id, friend time and last activity, by session id. */
  datatype SessionLink = SessionLink(sessionId: string, lineUserId: string, at: int)

  function ApplySessionLink(sessions: seq<Session>, w: SessionLink): (t: seq<Session>)
    ensures |t| == |sessions|
    ensures forall i :: 0 <= i < |sessions| && sessions[i].id != w.sessionId ==> t[i] == sessions[i]
    ensures forall i :: 0 <= i < |sessions| && sessions[i].id == w.sessionId ==>
      && t[i].lineUserId == Some(w.lineUserId)
      && t[i].lineFriendAt == Some(w.at)
      && t[i].lastActivityAt == w.at
      && t[i].(lineUserId := sessions[i].lineUserId, lineFriendAt := sessions[i].lineFriendAt,
               lastActivityAt := sessions[i].lastActivityAt) == sessions[i]
  {
    seq(|sessions|, i requires 0 <= i < |sessions| =>
      if sessions[i].id == w.sessionId
      then sessions[i].(lineUserId := Some(w.lineUserId), lineFriendAt := Some(w.at), lastActivityAt := w.at)
      else sessions[i])
  }

  /** The `line_friend` funnel step recorded for a matched session. */
  datatype FunnelStep = FunnelStep(sessionId: string, agencyId: Option<string>, lineUserId: string, userId: string)

  /** What the main webhook's `linkUserToTracking` credits and writes. */
  datatype MainLink = MainLink(
    session: Option<Session>,
    sessionWrite: Option<SessionLink>,
    funnel: Option<FunnelStep>,
    visit: LinkResult)

  const MainNoLink := MainLink(None, None, None, NoLink)

  /** Tier 1 alone: the newest eligible session, when the query and the update succeed. */
  function SessionTier(sessionsQuery: Query<seq<Session>>, now: int, lineUserId: string, userId: string,
                       updateOk: bool): (r: MainLink)
    ensures r.visit == NoLink
    ensures r.session.Some? <==> r.sessionWrite.Some?
    ensures r.session.Some? <==> r.funnel.Some?
    ensures r.session.Some? ==>
      && sessionsQuery.Rows? && updateOk
      && (exists i :: NewestAt(sessionsQuery.rows, now, i) && r.session.value == sessionsQuery.rows[i])
      && r.sessionWrite.value == SessionLink(r.session.value.id, lineUserId, now)
      && r.funnel.value == FunnelStep(r.session.value.id, r.session.value.agencyId, lineUserId, userId)
    ensures sessionsQuery.Rows? && updateOk
      && (exists j :: 0 <= j < |sessionsQuery.rows| && SessionEligible(sessionsQuery.rows[j], now))
      ==> r.session.Some?
  {
    match sessionsQuery
    case QueryError => MainNoLink
    case Rows(sessions) =>
      match NewestUnmatchedSession(sessions, now)
      case None => MainNoLink
      case Some(i) =>
        if updateOk then
          var s := sessions[i];
          MainLink(Some(s), Some(SessionLink(s.id, lineUserId, now)),
                   Some(FunnelStep(s.id, s.agencyId, lineUserId, userId)), NoLink)
        else MainNoLink
  }

  /**
   * `linkUserToTracking` of the main webhook as it is written: tier 1, and
   * otherwise nothing, because tier 2 reads the headers of an `event` that is
   * not in scope and the resulting error is caught and turned into null.
   */
  function MainLinkAsWritten(sessionsQuery: Query<seq<Session>>, now: int, lineUserId: string,
                             userId: string, updateOk: bool): (r: MainLink)
    ensures r.visit == NoLink
  {
    SessionTier(sessionsQuery, now, lineUserId, userId, updateOk)
  }

  /**
   * The main webhook with tier 2 given the request headers it evidently
   * meant to read: tier 1 first, and only when it credits nothing, the visit
   * scan under the main config.
   */
  function MainLinkCorrected(sessionsQuery: Query<seq<Session>>, now: int, lineUserId: string,
                             userId: string, sessionUpdateOk: bool, headers: map<string, string>,
                             visitsQuery: Query<seq<Visit>>, visitUpdateOk: bool): (r: MainLink)
    ensures r.session.Some? ==> r == SessionTier(sessionsQuery, now, lineUserId, userId, sessionUpdateOk)
    ensures r.session.None? ==>
      r == MainNoLink.(visit := LinkUserToVisit(MainConfig, RequestOf(headers), lineUserId, visitsQuery, visitUpdateOk))
    ensures r.session.Some? ==> r.visit == NoLink
  {
    var t := SessionTier(sessionsQuery, now, lineUserId, userId, sessionUpdateOk);
    if t.session.Some? then t
    else MainNoLink.(visit := LinkUserToVisit(MainConfig, RequestOf(headers), lineUserId, visitsQuery, visitUpdateOk))
  }

  /**
   * The discrepancy: with no session to match and one fresh visit carrying a
   * session id, the written code credits nothing while the corrected tier 2
   * credits that visit.
   */
  lemma MainTierTwoUnreachable(headers: map<string, string>)
    ensures var v := Visit("v1", None, None, 0.0, Some("s1"), None, None, None, None, None);
      && MainLinkAsWritten(Rows([]), 0, "U1", "U1", true).visit.matched.None?
      && MainLinkCorrected(Rows([]), 0, "U1", "U1", true, headers, Rows([v]), true).visit.matched == Some(v)
  {
    var v := Visit("v1", None, None, 0.0, Some("s1"), None, None, None, None, None);
    var req := RequestOf(headers);
    assert Candidates([v]) == [v];
    assert Score(MainConfig, v, req) > 0.0;
    assert FirstBest(Scores(MainConfig, req, [v]), 0);
    SelectBestIsFirstBest(Scores(MainConfig, req, [v]), 0);
  }
}
