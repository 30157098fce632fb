/**
 * The three LINE webhook entry points (main, TaskMate AI, subsidy navigator):
 * what each answers, which events it dispatches, when it forwards the raw body
 * to the external webhook and to the Render service, and what a follow event
 * does to the users table, the visit table and the conversion ledger.
 *
 * The body's JSON parse is an input (`None` when the body or its `events` is
 * unusable); the forwards are reported as decisions, not performed.
 */
module LineWebhooks {
  import opened Wrappers
  import opened JsText
  import opened LineCommon
  import opened Attribution
  import opened Conversions

  datatype Variant = MainHook | TaskmateHook | SubsidyHook

  /** A LINE event: its type, the source user and the reply token when there is one. */
  datatype LineEvent = LineEvent(kind: string, userId: string, replyToken: Option<string>)

  /** The incoming HTTP request. */
  datatype HookRequest = HookRequest(httpMethod: string, headers: map<string, string>, body: string)

  /** The deployment's settings: channel secret and the variant's external webhook URL. */
  datatype HookEnv = HookEnv(channelSecret: Option<string>, externalUrl: Option<string>)

  /** The status answered, the events dispatched and the two background forwards. */
  datatype HookResult = HookResult(status: int, dispatched: seq<LineEvent>,
                                   forwardExternal: bool, forwardRender: bool)

  /** The request has already been forwarded by another deployment. */
  predicate AlreadyForwarded(headers: map<string, string>) {
    HeaderTruthy(headers, "x-forwarded-from")
  }

  predicate HasMessageEvent(events: seq<LineEvent>) {
    exists i | 0 <= i < |events| :: events[i].kind == "message"
  }

  function SignatureOf(headers: map<string, string>): Option<string> {
    if "x-line-signature" in headers then Some(headers["x-line-signature"]) else None
  }

  /**
   * The webhook handler: 200 for a preflight, 405 for anything but POST, 401
   * for a bad signature, 500 when the body has no usable event list, and
   * otherwise every event is dispatched and the answer is 200. The external
   * forward needs a request that was not already forwarded and a configured
   * URL; the Render forward (main and TaskMate only) needs a message event and
   * a request that was not already forwarded.
   */
  function HandleWebhook(variant: Variant, env: HookEnv, req: HookRequest,
                         parsed: Option<seq<LineEvent>>, hmac: (string, string) -> string): (r: HookResult)
    ensures req.httpMethod == "OPTIONS" ==> r == HookResult(200, [], false, false)
    ensures req.httpMethod != "OPTIONS" && req.httpMethod != "POST" ==> r == HookResult(405, [], false, false)
    ensures req.httpMethod == "POST" ==>
      (r.status == 200 <==> VerifySignature(req.body, SignatureOf(req.headers), env.channelSecret, hmac) && parsed.Some?)
    ensures req.httpMethod == "POST" && !VerifySignature(req.body, SignatureOf(req.headers), env.channelSecret, hmac)
      ==> r == HookResult(401, [], false, false)
    ensures r.status == 200 && req.httpMethod == "POST" ==> r.dispatched == parsed.value
    ensures r.forwardExternal <==>
      && r.status == 200 && req.httpMethod == "POST"
      && !AlreadyForwarded(req.headers) && Truthy(env.externalUrl)
    ensures r.forwardRender <==>
      && r.status == 200 && req.httpMethod == "POST" && variant != SubsidyHook
      && !AlreadyForwarded(req.headers) && HasMessageEvent(r.dispatched)
  {
    if req.httpMethod == "OPTIONS" then HookResult(200, [], false, false)
    else if req.httpMethod != "POST" then HookResult(405, [], false, false)
    else if !VerifySignature(req.body, SignatureOf(req.headers), env.channelSecret, hmac) then
      HookResult(401, [], false, false)
    else match parsed
      case None => HookResult(500, [], false, false)
      case Some(events) =>
        var firstHop := !AlreadyForwarded(req.headers);
        HookResult(200, events,
                   firstHop && Truthy(env.externalUrl),
                   firstHop && variant != SubsidyHook && HasMessageEvent(events))
  }

  /** A request that carries `x-forwarded-from` is never forwarded again, so two deployments cannot loop. */
  lemma ForwardedRequestsStop(variant: Variant, env: HookEnv, req: HookRequest,
                              parsed: Option<seq<LineEvent>>, hmac: (string, string) -> string)
    requires AlreadyForwarded(req.headers)
    ensures var r := HandleWebhook(variant, env, req, parsed, hmac);
      !r.forwardExternal && !r.forwardRender
  {
  }

  /** Nothing is dispatched or forwarded unless the body is authentic. */
  lemma OnlyAuthenticBodiesAct(variant: Variant, env: HookEnv, req: HookRequest,
                               parsed: Option<seq<LineEvent>>, hmac: (string, string) -> string)
    requires var r := HandleWebhook(variant, env, req, parsed, hmac);
      r.dispatched != [] || r.forwardExternal || r.forwardRender
    ensures Truthy(env.channelSecret)
    ensures SignatureOf(req.headers) == Some(hmac(env.channelSecret.value, req.body))
  {
  }

  // ---------------------------------------------------------------------------
  // Event dispatch
  // ---------------------------------------------------------------------------

  datatype Handler = OnFollow | OnUnfollow | OnMessage | OnPostback | Ignored

  /** The handler an event type reaches; only the subsidy webhook handles postbacks. */
  function Dispatch(variant: Variant, kind: string): (h: Handler)
    ensures h == OnFollow <==> kind == "follow"
    ensures h == OnUnfollow <==> kind == "unfollow"
    ensures h == OnMessage <==> kind == "message"
    ensures h == OnPostback <==> variant == SubsidyHook && kind == "postback"
    ensures h == Ignored <==>
      kind != "follow" && kind != "unfollow" && kind != "message"
        && (variant != SubsidyHook || kind != "postback")
  {
    if kind == "follow" then OnFollow
    else if kind == "unfollow" then OnUnfollow
    else if kind == "message" then OnMessage
    else if kind == "postback" && variant == SubsidyHook then OnPostback
    else Ignored
  }

  // ---------------------------------------------------------------------------
  // Follow in the service webhooks
  // ---------------------------------------------------------------------------

  /** The state a service follow reads and writes. */
  datatype ServiceState = ServiceState(users: map<string, User>, visits: seq<Visit>, ledger: Ledger)

  /** The outcomes the model takes as given: the LINE profile and each database write. */
  datatype ServiceOutcomes = ServiceOutcomes(
    profile: Option<Profile>, newUserId: string, now: int,
    userUpdateOk: bool, userInsertOk: bool,
    visitsQueryOk: bool, visitUpdateOk: bool, conversionInsertOk: bool)

  datatype ServiceFollow = ServiceFollow(state: ServiceState, linked: Option<Visit>, welcome: bool)

  /**
   * `handleFollowEvent` of the TaskMate and subsidy webhooks: without a
   * profile nothing happens; otherwise the user is upserted (a failed insert
   * ends the event), linked to the best visit, the conversion recorded, and —
   * subsidy only — a welcome reply sent when the event has a reply token.
   */
  function HandleServiceFollow(variant: Variant, serviceCode: string, headers: map<string, string>,
                               e: LineEvent, st: ServiceState, linkAgency: map<string, string>,
                               o: ServiceOutcomes): (r: ServiceFollow)
    requires variant != MainHook
    ensures o.profile.None? ==> r == ServiceFollow(st, None, false)
    ensures o.profile.Some? && GetOrCreateLineUser(st.users, o.profile.value, serviceCode, o.newUserId, o.now,
                                                   o.userUpdateOk, o.userInsertOk).InsertFailed?
      ==> r == ServiceFollow(st, None, false)
    ensures r.welcome <==>
      && variant == SubsidyHook && Truthy(e.replyToken) && o.profile.Some?
      && GetOrCreateLineUser(st.users, o.profile.value, serviceCode, o.newUserId, o.now,
                             o.userUpdateOk, o.userInsertOk).Upserted?
    ensures r.linked.Some? ==> r.linked.value in st.visits && Candidate(r.linked.value)
    ensures |r.state.visits| == |st.visits|
    ensures r.state.ledger == st.ledger || |r.state.ledger| == |st.ledger| + 1
  {
    var cfg := if variant == TaskmateHook then TaskmateConfig else SubsidyConfig;
    match o.profile
    case None => ServiceFollow(st, None, false)
    case Some(p) =>
      match GetOrCreateLineUser(st.users, p, serviceCode, o.newUserId, o.now, o.userUpdateOk, o.userInsertOk)
      case InsertFailed => ServiceFollow(st, None, false)
      case Upserted(user, users) =>
        var (matched, visits) := LinkFollower(cfg, headers, e.userId, st.visits, o);
        var ledger := RecordConversion(st.ledger, visits, linkAgency, user.id, e.userId, serviceCode,
                                       o.conversionInsertOk);
        ServiceFollow(ServiceState(users, visits, ledger), matched,
                      variant == SubsidyHook && Truthy(e.replyToken))
  }

  /** The visit a follower is linked to, and the visits table once that link is written. */
  function LinkFollower(cfg: Config, headers: map<string, string>, lineUserId: string, table: seq<Visit>,
                        o: ServiceOutcomes): (r: (Option<Visit>, seq<Visit>))
    ensures r.0.Some? ==> r.0.value in table && Candidate(r.0.value)
    ensures r.0.None? ==> r.1 == table
    ensures r.0.Some? ==> r.1 == ApplyVisitLink(table, VisitLink(r.0.value.id, lineUserId))
  {
    var query := if o.visitsQueryOk then Rows(table) else QueryError;
    var link := LinkUserToVisit(cfg, RequestOf(headers), lineUserId, query, o.visitUpdateOk);
    assert link.matched.Some? ==> link.matched.value in table && Candidate(link.matched.value) by {
      if link.matched.Some? {
        LinkedVisitIsBest(cfg, RequestOf(headers), lineUserId, table, o.visitUpdateOk);
      }
    }
    (link.matched, if link.write.Some? then ApplyVisitLink(table, link.write.value) else table)
  }

  /** Visit ids are unique in the table. */
  predicate UniqueIds(table: seq<Visit>) {
    forall i, j :: 0 <= i < j < |table| ==> table[i].id != table[j].id
  }

  /** After linking the row at `k`, it is the newest visit linked to the LINE user, if none was before. */
  lemma NewestLinkedAfterLink(table: seq<Visit>, k: nat, lineUserId: string)
    requires k < |table| && UniqueIds(table)
    requires forall j :: 0 <= j < |table| ==> table[j].lineUserId != Some(lineUserId)
    ensures NewestLinkedVisit(ApplyVisitLink(table, VisitLink(table[k].id, lineUserId)), lineUserId) == Some(k)
  {
    var t := ApplyVisitLink(table, VisitLink(table[k].id, lineUserId));
    var r := NewestLinkedVisit(t, lineUserId);
    assert t[k].lineUserId == Some(lineUserId);
    assert forall j :: 0 <= j < |t| && j != k ==> t[j] == table[j];
  }

  /**
   * A follow that links a fresh visit carrying a tracking link records exactly
   * one 'friend_add' conversion for that link and the upserted user — unless
   * the user already has one through that link or the insert fails.
   */
  lemma FollowCreditsLinkedVisit(variant: Variant, serviceCode: string, headers: map<string, string>,
                                 e: LineEvent, st: ServiceState, linkAgency: map<string, string>,
                                 o: ServiceOutcomes)
    requires variant != MainHook
    requires UniqueIds(st.visits)
    requires forall j :: 0 <= j < |st.visits| ==> st.visits[j].lineUserId != Some(e.userId)
    requires o.conversionInsertOk
    ensures var r := HandleServiceFollow(variant, serviceCode, headers, e, st, linkAgency, o);
      r.linked.Some? && Truthy(r.linked.value.trackingLinkId) && r.linked.value.trackingLinkId.value in linkAgency ==>
        var link := r.linked.value.trackingLinkId.value;
        var user := GetOrCreateLineUser(st.users, o.profile.value, serviceCode, o.newUserId, o.now,
                                        o.userUpdateOk, o.userInsertOk).user;
        && (HasServiceConversion(st.ledger, user.id, link) ==> r.state.ledger == st.ledger)
        && (!HasServiceConversion(st.ledger, user.id, link) ==>
              r.state.ledger == st.ledger + [FriendAddRow(user.id, linkAgency[link], link, serviceCode)])
  {
    var r := HandleServiceFollow(variant, serviceCode, headers, e, st, linkAgency, o);
    if r.linked.Some? && Truthy(r.linked.value.trackingLinkId) && r.linked.value.trackingLinkId.value in linkAgency {
      var w := r.linked.value;
      var k :| 0 <= k < |st.visits| && st.visits[k] == w;
      NewestLinkedAfterLink(st.visits, k, e.userId);
    }
  }

  // ---------------------------------------------------------------------------
  // Follow in the main webhook
  // ---------------------------------------------------------------------------

  /** The agency registered with the follower's LINE user id. */
  datatype Agency = Agency(id: string, status: string)

  datatype ProfileWrite = NoProfileWrite | ProfileUpdated | ProfileInserted

  /** The outcomes the model takes as given for a main-webhook follow. */
  datatype MainOutcomes = MainOutcomes(
    hasProfile: bool,
    agency: Option<Agency>,
    agencyUpdateOk: bool,
    profileExists: bool,
    profileInsertOk: bool,
    sessions: Query<seq<Session>>,
    now: int,
    sessionUpdateOk: bool,
    conversionInsertOk: bool)

  /** The agency activated (with its owner users), the profile write, the link-up and the ledger after it. */
  datatype MainFollow = MainFollow(
    activatedAgency: Option<string>,
    profileWrite: ProfileWrite,
    link: Option<MainLink>,
    ledger: Ledger)

  /**
   * `handleFollowEvent` of the main webhook. A follower who is an agency's
   * registered LINE account activates that agency and its owners unless it is
   * already active, and nothing else happens. Any other follower's profile
   * row is refreshed when it exists; a new profile is inserted and only then
   * is the follower linked to a session or visit, with the session's
   * conversion recorded when the session belongs to an agency.
   */
  function HandleMainFollow(e: LineEvent, o: MainOutcomes, ledger: Ledger,
                            linkServices: map<string, Option<string>>): (r: MainFollow)
    ensures !o.hasProfile ==> r == MainFollow(None, NoProfileWrite, None, ledger)
    ensures o.hasProfile && o.agency.Some? ==>
      && r.profileWrite == NoProfileWrite && r.link.None? && r.ledger == ledger
      && (r.activatedAgency.Some? <==> o.agency.value.status != "active" && o.agencyUpdateOk)
      && (r.activatedAgency.Some? ==> r.activatedAgency.value == o.agency.value.id)
    ensures r.activatedAgency.Some? ==> o.agency.Some? && o.agency.value.status != "active"
    ensures r.link.Some? <==> o.hasProfile && o.agency.None? && !o.profileExists && o.profileInsertOk
    ensures r.link.Some? ==> r.link.value == MainLinkAsWritten(o.sessions, o.now, e.userId, e.userId, o.sessionUpdateOk)
    ensures r.link.Some? && r.link.value.session.Some? ==>
      r.ledger == SessionConversion(ledger, r.link.value.session.value, e.userId, e.userId, linkServices,
                                    o.conversionInsertOk)
    ensures r.ledger != ledger ==> r.link.Some? && r.link.value.session.Some?
  {
    if !o.hasProfile then MainFollow(None, NoProfileWrite, None, ledger)
    else match o.agency
      case Some(a) =>
        if a.status == "active" || !o.agencyUpdateOk then MainFollow(None, NoProfileWrite, None, ledger)
        else MainFollow(Some(a.id), NoProfileWrite, None, ledger)
      case None =>
        if o.profileExists then MainFollow(None, ProfileUpdated, None, ledger)
        else if !o.profileInsertOk then MainFollow(None, NoProfileWrite, None, ledger)
        else
          var link := MainLinkAsWritten(o.sessions, o.now, e.userId, e.userId, o.sessionUpdateOk);
          var after := if link.session.Some?
            then SessionConversion(ledger, link.session.value, e.userId, e.userId, linkServices, o.conversionInsertOk)
            else ledger;
          MainFollow(None, ProfileInserted, Some(link), after)
  }

  /** A follow by an already active agency's LINE account changes nothing at all. */
  lemma ActiveAgencyFollowIsNoOp(e: LineEvent, o: MainOutcomes, ledger: Ledger,
                                 linkServices: map<string, Option<string>>)
    requires o.agency.Some? && o.agency.value.status == "active"
    ensures HandleMainFollow(e, o, ledger, linkServices) == MainFollow(None, NoProfileWrite, None, ledger)
  {
  }

  /** A returning follower (existing profile) is never re-attributed. */
  lemma ReturningFollowerNotRelinked(e: LineEvent, o: MainOutcomes, ledger: Ledger,
                                     linkServices: map<string, Option<string>>)
    requires o.profileExists
    ensures HandleMainFollow(e, o, ledger, linkServices).link.None?
    ensures HandleMainFollow(e, o, ledger, linkServices).ledger == ledger
  {
  }
}
