/**
 * The conversion ledger (`agency_conversions`) and the three check-then-insert
 * writers that append to it after a follow has been attributed:
 *
 *  - the service webhooks' `recordConversion`, keyed by (user, tracking link);
 *  - the main webhook's visit conversion, keyed by (tracking link, LINE user,
 *    'line_friend');
 *  - the main webhook's session conversion, keyed by (session, 'line_friend').
 *
 * Each writer is modelled sequentially: the existence check reads the ledger,
 * and the insert, when it succeeds, appends one row.
 */
module Conversions {
  import opened Wrappers
  import opened JsText
  import opened Attribution

  /** A row of `agency_conversions`; columns a writer does not set are None. */
  datatype Conversion = Conversion(
    agencyId: Option<string>,
    trackingLinkId: Option<string>,
    visitId: Option<string>,
    sessionId: Option<string>,
    serviceId: Option<string>,
    userId: Option<string>,
    lineUserId: Option<string>,
    serviceCode: Option<string>,
    conversionType: string,
    conversionValue: Option<int>)

  type Ledger = seq<Conversion>

  /** `r` is `ledger` unchanged or with exactly `row` appended. */
  predicate AppendsAtMost(ledger: Ledger, r: Ledger, row: Conversion) {
    r == ledger || r == ledger + [row]
  }

  // ---------------------------------------------------------------------------
  // The service webhooks: recordConversion
  // ---------------------------------------------------------------------------

  /** A conversion already recorded for this user through this tracking link, of any type. */
  predicate HasServiceConversion(ledger: Ledger, userId: string, linkId: string) {
    exists i | 0 <= i < |ledger| :: ledger[i].userId == Some(userId) && ledger[i].trackingLinkId == Some(linkId)
  }

  /** The position of the newest visit already linked to the LINE user, in a newest-first table. */
  function NewestLinkedVisit(table: seq<Visit>, lineUserId: string): (r: Option<nat>)
    ensures r.Some? ==> r.value < |table| && table[r.value].lineUserId == Some(lineUserId)
    ensures r.Some? ==> forall j :: 0 <= j < r.value ==> table[j].lineUserId != Some(lineUserId)
    ensures r.None? ==> forall j :: 0 <= j < |table| ==> table[j].lineUserId != Some(lineUserId)
  {
    if table == [] then None
    else if table[0].lineUserId == Some(lineUserId) then Some(0)
    else match NewestLinkedVisit(table[1..], lineUserId)
      case None => None
      case Some(i) => Some(i + 1)
  }

  function FriendAddRow(userId: string, agencyId: string, linkId: string, serviceCode: string): Conversion {
    Conversion(Some(agencyId), Some(linkId), None, None, None, Some(userId), None,
               Some(serviceCode), "friend_add", None)
  }

  /**
   * `recordConversion` of the service webhooks. The newest visit linked to the
   * LINE user must carry a tracking link (whose owning agency `linkAgency`
   * knows); then a 'friend_add' row for the user, the link's agency and the
   * service is inserted unless the user already has a conversion through that
   * link. Everything else leaves the ledger as it is.
   */
  function RecordConversion(ledger: Ledger, visits: seq<Visit>, linkAgency: map<string, string>,
                            userId: string, lineUserId: string, serviceCode: string,
                            insertOk: bool): (r: Ledger)
    ensures r == ledger || |r| == |ledger| + 1
    ensures r != ledger ==>
      && insertOk
      && (var i := NewestLinkedVisit(visits, lineUserId);
          && i.Some? && Truthy(visits[i.value].trackingLinkId)
          && var link := visits[i.value].trackingLinkId.value;
             && link in linkAgency
             && !HasServiceConversion(ledger, userId, link)
             && r == ledger + [FriendAddRow(userId, linkAgency[link], link, serviceCode)])
    ensures (var i := NewestLinkedVisit(visits, lineUserId);
             i.None? || !Truthy(visits[i.value].trackingLinkId)) ==> r == ledger
    ensures (var i := NewestLinkedVisit(visits, lineUserId);
             && i.Some? && Truthy(visits[i.value].trackingLinkId)
             && var link := visits[i.value].trackingLinkId.value;
                && link in linkAgency && !HasServiceConversion(ledger, userId, link) && insertOk) ==>
      var link := visits[NewestLinkedVisit(visits, lineUserId).value].trackingLinkId.value;
      r == ledger + [FriendAddRow(userId, linkAgency[link], link, serviceCode)]
  {
    match NewestLinkedVisit(visits, lineUserId)
    case None => ledger
    case Some(i) =>
      var v := visits[i];
      if !Truthy(v.trackingLinkId) || v.trackingLinkId.value !in linkAgency then ledger
      else
        var link := v.trackingLinkId.value;
        if HasServiceConversion(ledger, userId, link) then ledger
        else if insertOk then ledger + [FriendAddRow(userId, linkAgency[link], link, serviceCode)]
        else ledger
  }

  /** A repeated follow records nothing new: recording is idempotent. */
  lemma RecordConversionIdempotent(ledger: Ledger, visits: seq<Visit>, linkAgency: map<string, string>,
                                   userId: string, lineUserId: string, serviceCode: string,
                                   ok1: bool, ok2: bool)
    requires ok1
    ensures var once := RecordConversion(ledger, visits, linkAgency, userId, lineUserId, serviceCode, ok1);
      RecordConversion(once, visits, linkAgency, userId, lineUserId, serviceCode, ok2) == once
  {
    var once := RecordConversion(ledger, visits, linkAgency, userId, lineUserId, serviceCode, ok1);
    if once != ledger {
      var link := visits[NewestLinkedVisit(visits, lineUserId).value].trackingLinkId.value;
      assert once[|ledger|].userId == Some(userId) && once[|ledger|].trackingLinkId == Some(link);
      assert HasServiceConversion(once, userId, link);
    }
  }

  /** No two rows share a (user, tracking link) pair. */
  predicate ServiceKeysUnique(ledger: Ledger) {
    forall i, j :: 0 <= i < j < |ledger| && ledger[i].userId.Some? && ledger[i].trackingLinkId.Some? ==>
      !(ledger[j].userId == ledger[i].userId && ledger[j].trackingLinkId == ledger[i].trackingLinkId)
  }

  /** The check-then-insert keeps (user, tracking link) pairs unique. */
  lemma RecordConversionKeepsKeysUnique(ledger: Ledger, visits: seq<Visit>, linkAgency: map<string, string>,
                                        userId: string, lineUserId: string, serviceCode: string, ok: bool)
    requires ServiceKeysUnique(ledger)
    ensures ServiceKeysUnique(RecordConversion(ledger, visits, linkAgency, userId, lineUserId, serviceCode, ok))
  {
    var r := RecordConversion(ledger, visits, linkAgency, userId, lineUserId, serviceCode, ok);
    if r != ledger {
      var link := visits[NewestLinkedVisit(visits, lineUserId).value].trackingLinkId.value;
      forall i, j | 0 <= i < j < |r| && r[i].userId.Some? && r[i].trackingLinkId.Some?
        ensures !(r[j].userId == r[i].userId && r[j].trackingLinkId == r[i].trackingLinkId)
      {
        if j == |ledger| {
          var row := ledger[i];
          assert r[i] == row;
          assert !(row.userId == Some(userId) && row.trackingLinkId == Some(link));
        }
      }
    }
  }

  // ---------------------------------------------------------------------------
  // The main webhook: conversion for a matched visit
  // ---------------------------------------------------------------------------

  /** The service of a tracking link (`trackingLink?.service_id || null`). */
  function LinkService(linkServices: map<string, Option<string>>, linkId: Option<string>): (r: Option<string>)
    ensures r.Some? ==> r.value != ""
  {
    if linkId.Some? && linkId.value in linkServices && Truthy(linkServices[linkId.value])
    then linkServices[linkId.value] else None
  }

  /** A 'line_friend' row for this tracking link and LINE user exists. */
  predicate HasVisitConversion(ledger: Ledger, linkId: Option<string>, lineUserId: string) {
    exists i | 0 <= i < |ledger| ::
      && ledger[i].trackingLinkId == linkId
      && ledger[i].lineUserId == Some(lineUserId)
      && ledger[i].conversionType == "line_friend"
  }

  function VisitConversionRow(v: Visit, lineUserId: string, serviceId: Option<string>): Conversion {
    Conversion(v.agencyId, v.trackingLinkId, Some(v.id), None, serviceId, None, Some(lineUserId),
               None, "line_friend", Some(0))
  }

  /**
   * After a visit is matched: when it carries both a tracking link and an
   * agency, a 'line_friend' conversion worth 0 is inserted unless one exists
   * for the same link and LINE user.
   */
  function VisitConversion(ledger: Ledger, v: Visit, lineUserId: string,
                           linkServices: map<string, Option<string>>, insertOk: bool): (r: Ledger)
    ensures AppendsAtMost(ledger, r, VisitConversionRow(v, lineUserId, LinkService(linkServices, v.trackingLinkId)))
    ensures r != ledger <==>
      Truthy(v.trackingLinkId) && Truthy(v.agencyId) && insertOk
        && !HasVisitConversion(ledger, v.trackingLinkId, lineUserId)
    ensures r != ledger ==> r[|ledger|].conversionValue == Some(0) && r[|ledger|].agencyId == v.agencyId
  {
    if !(Truthy(v.trackingLinkId) && Truthy(v.agencyId)) then ledger
    else if HasVisitConversion(ledger, v.trackingLinkId, lineUserId) then ledger
    else if insertOk then ledger + [VisitConversionRow(v, lineUserId, LinkService(linkServices, v.trackingLinkId))]
    else ledger
  }

  /** Once a visit conversion is in the ledger, a repeat adds nothing. */
  lemma VisitConversionIdempotent(ledger: Ledger, v: Visit, lineUserId: string,
                                  linkServices: map<string, Option<string>>, ok1: bool, ok2: bool)
    requires ok1
    ensures var once := VisitConversion(ledger, v, lineUserId, linkServices, ok1);
      VisitConversion(once, v, lineUserId, linkServices, ok2) == once
  {
    var once := VisitConversion(ledger, v, lineUserId, linkServices, ok1);
    if once != ledger {
      assert once[|ledger|].trackingLinkId == v.trackingLinkId;
      assert HasVisitConversion(once, v.trackingLinkId, lineUserId);
    }
  }

  // ---------------------------------------------------------------------------
  // The main webhook: conversion for a matched session
  // ---------------------------------------------------------------------------

  /** A 'line_friend' row for this session exists. */
  predicate HasSessionConversion(ledger: Ledger, sessionId: string) {
    exists i | 0 <= i < |ledger| ::
      ledger[i].sessionId == Some(sessionId) && ledger[i].conversionType == "line_friend"
  }

  function SessionConversionRow(s: Session, lineUserId: string, userId: string, serviceId: Option<string>): Conversion {
    Conversion(s.agencyId, s.trackingLinkId, s.visitId, Some(s.id), serviceId, Some(userId), Some(lineUserId),
               None, "line_friend", Some(0))
  }

  /**
   * After a session is matched: when it belongs to an agency, a 'line_friend'
   * conversion worth 0 is inserted unless the session already has one.
   */
  function SessionConversion(ledger: Ledger, s: Session, lineUserId: string, userId: string,
                             linkServices: map<string, Option<string>>, insertOk: bool): (r: Ledger)
    ensures AppendsAtMost(ledger, r,
      SessionConversionRow(s, lineUserId, userId, LinkService(linkServices, s.trackingLinkId)))
    ensures r != ledger <==> Truthy(s.agencyId) && insertOk && !HasSessionConversion(ledger, s.id)
  {
    if !Truthy(s.agencyId) then ledger
    else if HasSessionConversion(ledger, s.id) then ledger
    else if insertOk then ledger + [SessionConversionRow(s, lineUserId, userId, LinkService(linkServices, s.trackingLinkId))]
    else ledger
  }

  /** No session has two 'line_friend' rows. */
  predicate SessionKeysUnique(ledger: Ledger) {
    forall i, j :: 0 <= i < j < |ledger| && ledger[i].sessionId.Some? && ledger[i].conversionType == "line_friend" ==>
      !(ledger[j].sessionId == ledger[i].sessionId && ledger[j].conversionType == "line_friend")
  }

  /** The session check-then-insert keeps sessions' 'line_friend' rows unique. */
  lemma SessionConversionKeepsKeysUnique(ledger: Ledger, s: Session, lineUserId: string, userId: string,
                                         linkServices: map<string, Option<string>>, ok: bool)
    requires SessionKeysUnique(ledger)
    ensures SessionKeysUnique(SessionConversion(ledger, s, lineUserId, userId, linkServices, ok))
  {
    var r := SessionConversion(ledger, s, lineUserId, userId, linkServices, ok);
    if r != ledger {
      forall i, j | 0 <= i < j < |r| && r[i].sessionId.Some? && r[i].conversionType == "line_friend"
        ensures !(r[j].sessionId == r[i].sessionId && r[j].conversionType == "line_friend")
      {
        if j == |ledger| {
          var row := ledger[i];
          assert r[i] == row;
          assert !(row.sessionId == Some(s.id) && row.conversionType == "line_friend");
        }
      }
    }
  }
}
