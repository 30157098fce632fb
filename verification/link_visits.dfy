/**
 * An agency's view of the visits to one of its tracking links: each visit
 * with the LINE user it is known or inferred to belong to, that user's
 * profile, whether the user was already a friend before the link's first
 * visit, and the paging flags.
 *
 * Queries are inputs: the page of visits as the database returned it, the
 * agency's visits that carry a LINE user, the profiles table as a map, the
 * first visit's time and the visit count. Times are milliseconds.
 */
module LinkVisits {
  import opened Wrappers
  import opened JsText
  import opened AgencyAuth

  datatype Visit = Visit(id: string, visitorIp: Option<string>, userAgent: Option<string>,
                         lineUserId: Option<string>, createdAt: int)

  /** A visit of the agency that carries a LINE user (the inference query's row). */
  datatype Linked = Linked(visitorIp: Option<string>, userAgent: Option<string>, lineUserId: Option<string>)

  datatype Profile = Profile(userId: string, displayName: Option<string>, pictureUrl: Option<string>, createdAt: int)

  /** A value interpolated into a template string: null prints as "null". */
  function Show(v: Option<string>): string {
    match v
    case Some(s) => s
    case None => "null"
  }

  /** The `${ip}|||${ua}` key that ties an unlinked visit to a linked one. */
  function Key(ip: Option<string>, ua: Option<string>): string {
    Show(ip) + "|||" + Show(ua)
  }

  predicate Carries(vs: seq<Linked>, key: string, j: int)
    requires 0 <= j < |vs|
  {
    Key(vs[j].visitorIp, vs[j].userAgent) == key && Truthy(vs[j].lineUserId)
  }

  /** Position `j` is the last visit with that key and a LINE user. */
  predicate LastCarrierAt(vs: seq<Linked>, key: string, j: int) {
    && 0 <= j < |vs| && Carries(vs, key, j)
    && forall i :: j < i < |vs| ==> !Carries(vs, key, i)
  }

  /** Every key in `m` maps to the user of its last carrier in `vs`, and every carried key is in `m`. */
  ghost predicate LastWriterMap(vs: seq<Linked>, m: map<string, string>) {
    && (forall key :: key in m ==> exists j :: LastCarrierAt(vs, key, j) && m[key] == vs[j].lineUserId.value)
    && (forall key, j :: 0 <= j < |vs| && Carries(vs, key, j) ==> key in m)
  }

  /** One row of the inference loop: a linked visit writes its user under its key. */
  function Record(m: map<string, string>, v: Linked): map<string, string> {
    if Truthy(v.lineUserId) then m[Key(v.visitorIp, v.userAgent) := v.lineUserId.value] else m
  }

  /** The key-to-user map built in table order, a later visit overwriting an earlier one. */
  function InferenceMap(vs: seq<Linked>): (m: map<string, string>)
    ensures forall key :: key in m ==> exists j :: LastCarrierAt(vs, key, j) && m[key] == vs[j].lineUserId.value
    ensures forall key, j :: 0 <= j < |vs| && Carries(vs, key, j) ==> key in m
    decreases |vs|
  {
    if vs == [] then map[]
    else
      var m0 := InferenceMap(vs[..|vs| - 1]);
      RecordKeepsLastWriter(vs, m0);
      Record(m0, vs[|vs| - 1])
  }

  /** Recording the newest row keeps the last-writer property of the map built from the rows before it. */
  lemma RecordKeepsLastWriter(vs: seq<Linked>, m0: map<string, string>)
    requires |vs| >= 1 && LastWriterMap(vs[..|vs| - 1], m0)
    ensures LastWriterMap(vs, Record(m0, vs[|vs| - 1]))
  {
    var init := vs[..|vs| - 1];
    var last := vs[|vs| - 1];
    var m := Record(m0, last);
    assert forall i :: 0 <= i < |init| ==> init[i] == vs[i];
    forall key | key in m
      ensures exists j :: LastCarrierAt(vs, key, j) && m[key] == vs[j].lineUserId.value
    {
      if Truthy(last.lineUserId) && key == Key(last.visitorIp, last.userAgent) {
        assert LastCarrierAt(vs, key, |vs| - 1);
      } else {
        var j :| LastCarrierAt(init, key, j) && m0[key] == init[j].lineUserId.value;
        assert !Carries(vs, key, |vs| - 1);
        EarlierCarrierStaysLast(vs, key, j);
      }
    }
    assert forall key, j :: 0 <= j < |vs| - 1 && Carries(vs, key, j) ==> Carries(init, key, j);
  }

  /** The last carrier among the earlier rows stays the last one when the newest row does not carry the key. */
  lemma EarlierCarrierStaysLast(vs: seq<Linked>, key: string, j: int)
    requires |vs| >= 1 && LastCarrierAt(vs[..|vs| - 1], key, j) && !Carries(vs, key, |vs| - 1)
    ensures LastCarrierAt(vs, key, j)
  {
    var init := vs[..|vs| - 1];
    assert forall i :: 0 <= i < |init| ==> init[i] == vs[i];
    assert forall i :: j < i < |vs| - 1 ==> !Carries(init, key, i) && !Carries(vs, key, i);
  }

  /**
   * The inferred user for an unlinked visit is that of the last linked visit
   * with exactly the same key; there is none when no linked visit has it.
   */
  lemma InferenceIsLastWriter(vs: seq<Linked>, key: string, j: int)
    requires LastCarrierAt(vs, key, j)
    ensures key in InferenceMap(vs) && InferenceMap(vs)[key] == vs[j].lineUserId.value
  {
    var m := InferenceMap(vs);
    var i :| LastCarrierAt(vs, key, i) && m[key] == vs[i].lineUserId.value;
    assert i == j;
  }

  lemma InferenceNeedsKey(vs: seq<Linked>, key: string)
    requires forall j :: 0 <= j < |vs| ==> !Carries(vs, key, j)
    ensures key !in InferenceMap(vs)
  {
  }

  /** The ids the visits carry themselves (any non-null id, even an empty one). */
  function OwnIds(page: seq<Visit>): (r: set<string>)
    ensures forall id :: id in r <==> exists k :: 0 <= k < |page| && page[k].lineUserId == Some(id)
  {
    set k | 0 <= k < |page| && page[k].lineUserId.Some? :: page[k].lineUserId.value
  }

  /** The user matched to a visit without its own: the map's entry for its key, when truthy. */
  function Matched(v: Visit, inferred: Option<map<string, string>>): (r: Option<string>)
    ensures r.Some? ==> !Truthy(v.lineUserId) && inferred.Some? && Key(v.visitorIp, v.userAgent) in inferred.value
    ensures r.Some? ==> r.value == inferred.value[Key(v.visitorIp, v.userAgent)] && r.value != ""
  {
    if Truthy(v.lineUserId) || inferred.None? then None
    else
      var key := Key(v.visitorIp, v.userAgent);
      if key in inferred.value && inferred.value[key] != "" then Some(inferred.value[key]) else None
  }

  /** `visit.line_user_id || visit.matched_line_user_id`. */
  function EffectiveId(v: Visit, inferred: Option<map<string, string>>): (r: Option<string>)
    ensures Truthy(v.lineUserId) ==> r == v.lineUserId
    ensures !Truthy(v.lineUserId) ==> r == Matched(v, inferred)
  {
    OrElse(v.lineUserId, Matched(v, inferred))
  }

  /**
   * Which profiles are known: those of the visits' own ids when the bulk
   * query worked, and those of matched ids not among the own ids, fetched one
   * by one.
   */
  function KnownProfile(id: string, table: map<string, Profile>, ownIds: set<string>, bulkLoaded: bool,
                        matchedIds: set<string>): (r: Option<Profile>)
    ensures r.Some? <==> id in table && ((id in ownIds && bulkLoaded) || (id in matchedIds && id !in ownIds))
    ensures r.Some? ==> r.value == table[id]
  {
    if id in table && ((id in ownIds && bulkLoaded) || (id in matchedIds && id !in ownIds)) then Some(table[id]) else None
  }

  const ExistingFriend: string := "既存"
  const NewFriend: string := "新規"

  datatype Formatted = Formatted(visit: Visit, lineUserId: Option<string>, displayName: Option<string>,
                                 pictureUrl: Option<string>, friendStatus: Option<string>)

  /** The known profile of a visit's effective user; none when it has no effective user. */
  function ProfileFor(effective: Option<string>, table: map<string, Profile>, ownIds: set<string>, bulkLoaded: bool,
                      matchedIds: set<string>): (r: Option<Profile>)
    ensures !Truthy(effective) ==> r.None?
    ensures Truthy(effective) ==> r == KnownProfile(effective.value, table, ownIds, bulkLoaded, matchedIds)
  {
    if Truthy(effective) then KnownProfile(effective.value, table, ownIds, bulkLoaded, matchedIds) else None
  }

  /**
   * One visit as listed: its effective LINE user, that user's profile fields
   * when the profile is known, and the friend label — existing when the
   * profile is older than the link's first visit, new otherwise.
   */
  function Format(v: Visit, effective: Option<string>, profile: Option<Profile>, firstVisitAt: int): (f: Formatted)
    ensures f.visit == v
    ensures f.lineUserId == (if Truthy(effective) then effective else v.lineUserId)
    ensures f.friendStatus.None? <==> profile.None?
    ensures f.friendStatus.Some? ==>
      (f.friendStatus == Some(ExistingFriend) <==> profile.value.createdAt < firstVisitAt)
    ensures f.friendStatus.Some? ==> f.friendStatus.value in {ExistingFriend, NewFriend}
    ensures f.displayName == (if profile.Some? && Truthy(profile.value.displayName) then profile.value.displayName else None)
    ensures f.pictureUrl == (if profile.Some? && Truthy(profile.value.pictureUrl) then profile.value.pictureUrl else None)
  {
    var status := match profile
      case None => None
      case Some(p) => Some(if p.createdAt < firstVisitAt then ExistingFriend else NewFriend);
    var name := if profile.Some? && Truthy(profile.value.displayName) then profile.value.displayName else None;
    var picture := if profile.Some? && Truthy(profile.value.pictureUrl) then profile.value.pictureUrl else None;
    Formatted(v, if Truthy(effective) then effective else v.lineUserId, name, picture, status)
  }

  datatype Page = Page(status: int, visits: seq<Formatted>, total: int, hasMore: bool, offset: int, limit: int)

  function Failed(status: int): Page {
    Page(status, [], 0, false, 0, 0)
  }

  predicate HasUnlinked(page: seq<Visit>) {
    exists k :: 0 <= k < |page| && !Truthy(page[k].lineUserId)
  }

  /** The ids matched to unlinked visits of the page. */
  function MatchedIds(page: seq<Visit>, inferred: Option<map<string, string>>): set<string> {
    set k | 0 <= k < |page| && Matched(page[k], inferred).Some? :: Matched(page[k], inferred).value
  }

  /**
   * The handler: after the token and agency checks, a `link_id` is required
   * (400) and must name one of the agency's links (404); a failed page query
   * is 500. Otherwise every visit of the page is listed in the same order;
   * the inference map is built only when some visit lacks a user and the
   * agency query worked; the first visit's time defaults to `now`; and
   * `hasMore` says whether rows remain after this page.
   */
  function ListLinkVisits(httpMethod: string, authorization: Option<string>, agencyHeader: Option<string>,
                          verify: string -> Jwt, linkId: Option<string>, linkOwned: bool,
                          limitParsed: Option<int>, offsetParsed: Option<int>, page: Query<seq<Visit>>,
                          agencyVisits: Query<seq<Linked>>, profiles: map<string, Profile>, bulkLoaded: bool,
                          firstVisitAt: Option<int>, now: int, totalCount: Option<int>): (r: Page)
    ensures httpMethod == "OPTIONS" ==> r == Failed(200)
    ensures httpMethod != "OPTIONS" && httpMethod != "GET" ==> r == Failed(405)
    ensures httpMethod == "GET" && CheckAgencyHeader(authorization, agencyHeader, verify).Reject? ==>
      r == Failed(CheckAgencyHeader(authorization, agencyHeader, verify).status)
    ensures (&& httpMethod == "GET" && CheckAgencyHeader(authorization, agencyHeader, verify).Pass?
             && !Truthy(linkId)) ==> r == Failed(400)
    ensures (&& httpMethod == "GET" && CheckAgencyHeader(authorization, agencyHeader, verify).Pass?
             && Truthy(linkId) && !linkOwned) ==> r == Failed(404)
    ensures (&& httpMethod == "GET" && CheckAgencyHeader(authorization, agencyHeader, verify).Pass?
             && Truthy(linkId) && linkOwned) ==>
      && (page.QueryError? ==> r == Failed(500))
      && (page.Rows? ==> r.status == 200)
    ensures r.status == 200 && httpMethod == "GET" ==>
      && page.Rows? && |r.visits| == |page.rows|
      && r.limit == NumberOr(limitParsed, 50) && r.offset == NumberOr(offsetParsed, 0)
      && r.total == (if totalCount.Some? then totalCount.value else 0)
      && (r.hasMore <==> r.offset + r.limit < r.total)
      && var inferred := if HasUnlinked(page.rows) && agencyVisits.Rows? then Some(InferenceMap(agencyVisits.rows)) else None;
         forall k :: 0 <= k < |page.rows| ==>
           var e := EffectiveId(page.rows[k], inferred);
           r.visits[k] == Format(page.rows[k], e,
                                 ProfileFor(e, profiles, OwnIds(page.rows), bulkLoaded, MatchedIds(page.rows, inferred)),
                                 firstVisitAt.GetOr(now))
  {
    if httpMethod == "OPTIONS" then Failed(200)
    else if httpMethod != "GET" then Failed(405)
    else match CheckAgencyHeader(authorization, agencyHeader, verify)
      case Reject(s) => Failed(s)
      case Pass(_) =>
        if !Truthy(linkId) then Failed(400)
        else if !linkOwned then Failed(404)
        else if page.QueryError? then Failed(500)
        else
          var vs := page.rows;
          var limit := NumberOr(limitParsed, 50);
          var offset := NumberOr(offsetParsed, 0);
          var inferred := if HasUnlinked(vs) && agencyVisits.Rows? then Some(InferenceMap(agencyVisits.rows)) else None;
          var own := OwnIds(vs);
          var matched := MatchedIds(vs, inferred);
          var firstAt := firstVisitAt.GetOr(now);
          var formatted := seq(|vs|, k requires 0 <= k < |vs| =>
            var e := EffectiveId(vs[k], inferred);
            Format(vs[k], e, ProfileFor(e, profiles, own, bulkLoaded, matched), firstAt));
          var total := if totalCount.Some? then totalCount.value else 0;
          Page(200, formatted, total, offset + limit < total, offset, limit)
  }

  /**
   * A visit's own user is never replaced, and an unlinked visit is given a
   * user only when the agency has a linked visit with exactly its key — the
   * user of the last such visit.
   */
  lemma OwnUserWins(v: Visit, vs: seq<Linked>)
    ensures Truthy(v.lineUserId) ==> EffectiveId(v, Some(InferenceMap(vs))) == v.lineUserId
    ensures (&& !Truthy(v.lineUserId)
             && forall j :: 0 <= j < |vs| ==> !Carries(vs, Key(v.visitorIp, v.userAgent), j)) ==>
      EffectiveId(v, Some(InferenceMap(vs))).None?
    ensures (forall j :: LastCarrierAt(vs, Key(v.visitorIp, v.userAgent), j) && !Truthy(v.lineUserId) ==>
      EffectiveId(v, Some(InferenceMap(vs))) == vs[j].lineUserId)
  {
    var key := Key(v.visitorIp, v.userAgent);
    if !Truthy(v.lineUserId) && forall j :: 0 <= j < |vs| ==> !Carries(vs, key, j) {
      InferenceNeedsKey(vs, key);
    }
    forall j | LastCarrierAt(vs, key, j) && !Truthy(v.lineUserId)
      ensures EffectiveId(v, Some(InferenceMap(vs))) == vs[j].lineUserId
    {
      InferenceIsLastWriter(vs, key, j);
    }
  }
}
