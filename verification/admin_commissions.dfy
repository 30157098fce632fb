/**
 * The administrators' commission endpoint: the Basic-auth gate, routing on
 * method and the path's last segment, manual creation with its defaults,
 * the update patch with its status check, and the listing's statistics.
 *
 * Request bodies are records of optional fields, or for the update a map from
 * field name to JSON value (an absent key is `undefined`). Rates are reals,
 * amounts whole yen. The database's filtering, ordering and paging are not
 * part of the model: the listing's rows are given as the query returned them.
 */
module AdminCommissions {
  import opened Wrappers
  import opened JsText

  // ---------------------------------------------------------------------------
  // Authentication and routing
  // ---------------------------------------------------------------------------

  const DefaultAdminUsername: string := "admin"
  const DefaultAdminPassword: string := "TaskMate2024Admin!"

  /**
   * The Basic-auth check: the header must start with `Basic `; its decoded
   * text split on ':' gives the user name (first part) and password (second
   * part), compared with ADMIN_USERNAME / ADMIN_PASSWORD or their defaults.
   * Base64 decoding is the parameter `decode`.
   */
  function AdminAuthorized(authorization: Option<string>, decode: string -> string,
                           envUser: Option<string>, envPassword: Option<string>): (ok: bool)
    ensures ok ==> Truthy(authorization) && StartsWith(authorization.value, "Basic ")
    ensures ok <==> (
      && Truthy(authorization) && StartsWith(authorization.value, "Basic ")
      && var parts := Split(decode(authorization.value[6..]), ':');
         && parts[0] == (if Truthy(envUser) then envUser.value else DefaultAdminUsername)
         && |parts| >= 2 && parts[1] == (if Truthy(envPassword) then envPassword.value else DefaultAdminPassword))
  {
    if !Truthy(authorization) || !StartsWith(authorization.value, "Basic ") then false
    else
      var parts := Split(decode(authorization.value[6..]), ':');
      var user := if Truthy(envUser) then envUser.value else DefaultAdminUsername;
      var password := if Truthy(envPassword) then envPassword.value else DefaultAdminPassword;
      parts[0] == user && |parts| >= 2 && parts[1] == password
  }

  /**
   * Only the text between the first and second ':' is compared, so a
   * configured password that itself contains ':' can never be entered.
   */
  lemma ColonPasswordLocksOut(authorization: Option<string>, decode: string -> string,
                              envUser: Option<string>, password: string)
    requires ':' in password
    ensures !AdminAuthorized(authorization, decode, envUser, Some(password))
  {
  }

  /** The path's non-empty '/'-segments, in order. */
  function NonEmpty(parts: seq<string>): (r: seq<string>)
    ensures forall k :: 0 <= k < |r| ==> r[k] != ""
    ensures forall s :: s in r <==> s in parts && s != ""
    ensures r == [] <==> forall s :: s in parts ==> s == ""
  {
    if parts == [] then []
    else
      var rest := NonEmpty(parts[1..]);
      assert forall s :: s in parts <==> s == parts[0] || s in parts[1..];
      if parts[0] != "" then
        assert parts[0] in parts;
        [parts[0]] + rest
      else
        assert (forall s :: s in parts ==> s == "") <==> (forall s :: s in parts[1..] ==> s == "");
        rest
  }

  /** The path's last non-empty segment, taken as the commission id. */
  function PathId(path: string): (r: Option<string>)
    ensures r.Some? ==> r.value != "" && '/' !in r.value
    ensures r.None? <==> forall s :: s in Split(path, '/') ==> s == ""
  {
    var parts := Split(path, '/');
    var segments := NonEmpty(parts);
    if segments == [] then None
    else
      var id := segments[|segments| - 1];
      assert id in segments && id in parts;
      var k :| 0 <= k < |parts| && parts[k] == id;
      assert id != "" && id in Split(path, '/');
      Some(id)
  }

  datatype Route = ListAll | GetOne(id: string) | Create | Update(id: string) | Delete(id: string) | NotAllowed

  /** Method and id to operation: POST creates whatever the path; PUT and DELETE need an id. */
  function RouteFor(httpMethod: string, id: Option<string>): (r: Route)
    ensures r == ListAll <==> httpMethod == "GET" && id.None?
    ensures r.GetOne? <==> httpMethod == "GET" && id.Some?
    ensures r == Create <==> httpMethod == "POST"
    ensures (r.Update? || r.Delete? || r.GetOne?) ==> id == Some(r.id)
    ensures r == NotAllowed <==> !(httpMethod in {"GET", "POST"} || (httpMethod in {"PUT", "DELETE"} && id.Some?))
  {
    if httpMethod == "GET" && id.None? then ListAll
    else if httpMethod == "GET" then GetOne(id.value)
    else if httpMethod == "POST" then Create
    else if httpMethod == "PUT" && id.Some? then Update(id.value)
    else if httpMethod == "DELETE" && id.Some? then Delete(id.value)
    else NotAllowed
  }

  /** Routing as written: the id is the path's last non-empty segment, whatever it is. */
  function RouteAsWritten(httpMethod: string, path: string): Route {
    RouteFor(httpMethod, PathId(path))
  }

  /** The segments of the function's own path. */
  const FunctionSegments: seq<string> := ["", ".netlify", "functions", "admin-commissions"]

  /** `/.netlify/functions/admin-commissions`. */
  const FunctionPath: string := Join(FunctionSegments, '/')

  lemma FunctionPathSegments()
    ensures Split(FunctionPath, '/') == FunctionSegments
  {
    assert '/' !in FunctionSegments[1];
    assert '/' !in FunctionSegments[2];
    assert '/' !in FunctionSegments[3];
    assert forall k :: 0 <= k < |FunctionSegments| ==> '/' !in FunctionSegments[k];
    SplitJoin(FunctionSegments, '/');
  }

  /**
   * On the function's own path the last segment is the function's name, so
   * a GET there asks for the commission with id "admin-commissions" and the
   * listing is never reached.
   */
  lemma ListingUnreachable()
    ensures RouteAsWritten("GET", FunctionPath) == GetOne("admin-commissions")
  {
    FunctionPathSegments();
    var parts := FunctionSegments;
    assert NonEmpty(parts[3..]) == ["admin-commissions"];
    assert NonEmpty(parts[2..]) == ["functions", "admin-commissions"];
    assert NonEmpty(parts[1..]) == [".netlify", "functions", "admin-commissions"];
    assert NonEmpty(parts) == [".netlify", "functions", "admin-commissions"];
  }

  /** The routing evidently intended: the function's own name is not a commission id. */
  function RouteCorrected(httpMethod: string, path: string): (r: Route)
    ensures PathId(path) != Some("admin-commissions") ==> r == RouteAsWritten(httpMethod, path)
    ensures PathId(path) == Some("admin-commissions") ==> r == RouteFor(httpMethod, None)
  {
    var id := PathId(path);
    RouteFor(httpMethod, if id == Some("admin-commissions") then None else id)
  }

  /** With the correction, a GET on the function's path lists the commissions. */
  lemma CorrectedRouteLists()
    ensures RouteCorrected("GET", FunctionPath) == ListAll
  {
    ListingUnreachable();
  }

  /** What the handler does before any database access. */
  datatype Dispatch = Answer(status: int) | Handle(route: Route)

  /** OPTIONS is answered first, then the Basic-auth gate, then the route (405 when none fits). */
  function Gate(httpMethod: string, path: string, authorization: Option<string>, decode: string -> string,
                envUser: Option<string>, envPassword: Option<string>): (d: Dispatch)
    ensures httpMethod == "OPTIONS" ==> d == Answer(200)
    ensures httpMethod != "OPTIONS" && !AdminAuthorized(authorization, decode, envUser, envPassword) ==> d == Answer(401)
    ensures d.Handle? ==> AdminAuthorized(authorization, decode, envUser, envPassword) && d.route != NotAllowed
    ensures d.Handle? ==> d.route == RouteAsWritten(httpMethod, path)
    ensures httpMethod != "OPTIONS" && AdminAuthorized(authorization, decode, envUser, envPassword) ==>
      d == (if RouteAsWritten(httpMethod, path) == NotAllowed then Answer(405) else Handle(RouteAsWritten(httpMethod, path)))
  {
    if httpMethod == "OPTIONS" then Answer(200)
    else if !AdminAuthorized(authorization, decode, envUser, envPassword) then Answer(401)
    else
      var r := RouteAsWritten(httpMethod, path);
      if r == NotAllowed then Answer(405) else Handle(r)
  }

  /**
   * An authorized request is refused with 405 exactly when its method is
   * neither GET nor POST and is not a PUT or DELETE on a path that names an
   * id; every other authorized request reaches a handler.
   */
  lemma GateRefusesOnlyUnroutedMethods(httpMethod: string, path: string, authorization: Option<string>,
                                       decode: string -> string, envUser: Option<string>, envPassword: Option<string>)
    requires httpMethod != "OPTIONS" && AdminAuthorized(authorization, decode, envUser, envPassword)
    ensures var d := Gate(httpMethod, path, authorization, decode, envUser, envPassword);
      && (d == Answer(405) <==>
           !(httpMethod in {"GET", "POST"} || (httpMethod in {"PUT", "DELETE"} && PathId(path).Some?)))
      && (httpMethod == "POST" ==> d == Handle(Create))
  {
  }

  // ---------------------------------------------------------------------------
  // Manual creation
  // ---------------------------------------------------------------------------

  /** The creation body's fields; a number is truthy when present and non-zero. */
  datatype CreateBody = CreateBody(
    agencyId: Option<string>, serviceId: Option<string>, periodStart: Option<string>, periodEnd: Option<string>,
    totalConversions: Option<int>, totalSales: Option<int>, grossProfit: Option<int>,
    rate: Option<real>, amount: Option<int>, notes: Option<string>)

  predicate RealTruthy(o: Option<real>) { o.Some? && o.value != 0.0 }

  const FallbackRate: real := 20.0

  /** `commission_rate || service.default_commission_rate || 20`: a zero rate falls through. */
  function FinalRate(given: Option<real>, serviceDefault: Option<real>): (r: real)
    ensures r != 0.0
    ensures RealTruthy(given) ==> r == given.value
    ensures !RealTruthy(given) && RealTruthy(serviceDefault) ==> r == serviceDefault.value
    ensures !RealTruthy(given) && !RealTruthy(serviceDefault) ==> r == FallbackRate
  {
    if RealTruthy(given) then given.value
    else if RealTruthy(serviceDefault) then serviceDefault.value
    else FallbackRate
  }

  /**
   * The given amount when truthy; otherwise, when a gross profit is given,
   * that profit times the rate percent rounded down; otherwise zero.
   */
  function FinalAmount(given: Option<int>, grossProfit: Option<int>, rate: real): (r: int)
    ensures IntTruthy(given) ==> r == given.value
    ensures !IntTruthy(given) && IntTruthy(grossProfit) ==>
      r as real <= grossProfit.value as real * rate / 100.0 < r as real + 1.0
    ensures !IntTruthy(given) && !IntTruthy(grossProfit) ==> r == 0
  {
    if IntTruthy(given) then given.value
    else if IntTruthy(grossProfit) then (grossProfit.value as real * rate / 100.0).Floor
    else 0
  }

  /** A computed commission on a non-negative profit at a rate of at most 100% stays within the profit. */
  lemma ComputedAmountWithinProfit(grossProfit: int, rate: real)
    requires grossProfit > 0 && 0.0 < rate <= 100.0
    ensures 0 <= FinalAmount(None, Some(grossProfit), rate) <= grossProfit
  {
    var x := grossProfit as real * rate / 100.0;
    assert 0.0 < x <= grossProfit as real;
  }

  /** The row inserted by a manual creation. */
  datatype NewCommission = NewCommission(
    agencyId: string, serviceId: string, periodStart: string, periodEnd: string,
    totalConversions: int, totalSales: int, grossProfit: int, rate: real, amount: int,
    status: string, notes: Option<string>)

  datatype Created = Created(status: int, row: Option<NewCommission>)

  /**
   * Creation: 400 unless agency, service and both period ends are given;
   * 404 when the agency or the service is not found (the service lookup
   * gives its default rate); 500 when the insert fails; otherwise 201 with
   * a `pending` row.
   */
  function CreateCommission(body: CreateBody, agencyFound: bool, service: Option<Option<real>>, inserted: bool): (r: Created)
    ensures !(Truthy(body.agencyId) && Truthy(body.serviceId) && Truthy(body.periodStart) && Truthy(body.periodEnd)) ==>
      r == Created(400, None)
    ensures Truthy(body.agencyId) && Truthy(body.serviceId) && Truthy(body.periodStart) && Truthy(body.periodEnd) ==>
      && (!agencyFound || service.None? ==> r == Created(404, None))
      && (agencyFound && service.Some? ==> r.status == (if inserted then 201 else 500))
    ensures r.row.Some? <==> r.status == 201
    ensures r.status == 201 ==> agencyFound && service.Some? && inserted
    ensures r.row.Some? ==>
      var row := r.row.value;
      && row.status == "pending"
      && Some(row.agencyId) == body.agencyId && Some(row.serviceId) == body.serviceId
      && Some(row.periodStart) == body.periodStart && Some(row.periodEnd) == body.periodEnd
      && row.rate == FinalRate(body.rate, service.value)
      && row.amount == FinalAmount(body.amount, body.grossProfit, row.rate)
      && row.grossProfit == NumberOr(body.grossProfit, 0)
      && row.totalConversions == NumberOr(body.totalConversions, 0)
      && row.totalSales == NumberOr(body.totalSales, 0)
      && row.notes == (if Truthy(body.notes) then body.notes else None)
  {
    if !(Truthy(body.agencyId) && Truthy(body.serviceId) && Truthy(body.periodStart) && Truthy(body.periodEnd)) then
      Created(400, None)
    else if !agencyFound then Created(404, None)
    else if service.None? then Created(404, None)
    else
      var rate := FinalRate(body.rate, service.value);
      var amount := FinalAmount(body.amount, body.grossProfit, rate);
      var row := NewCommission(body.agencyId.value, body.serviceId.value, body.periodStart.value, body.periodEnd.value,
                               NumberOr(body.totalConversions, 0), NumberOr(body.totalSales, 0), NumberOr(body.grossProfit, 0),
                               rate, amount, "pending", if Truthy(body.notes) then body.notes else None);
      if !inserted then Created(500, None) else Created(201, Some(row))
  }

  /** A rate of zero in the request is not kept: the service default applies instead. */
  lemma ZeroRateUsesDefault(serviceDefault: real)
    requires serviceDefault != 0.0
    ensures FinalRate(Some(0.0), Some(serviceDefault)) == serviceDefault
  {
  }

  // ---------------------------------------------------------------------------
  // Update
  // ---------------------------------------------------------------------------

  datatype Json = JNull | JString(text: string) | JNumber(number: real) | JBool(flag: bool)

  predicate JsonTruthy(v: Json) {
    match v
    case JNull => false
    case JString(t) => t != ""
    case JNumber(n) => n != 0.0
    case JBool(b) => b
  }

  const ValidStatuses: seq<string> := ["pending", "approved", "paid", "rejected", "cancelled"]

  /** Fields copied whenever the body has them, even as null. */
  const DefinedFields: set<string> := {"commission_amount", "commission_rate", "gross_profit", "notes"}

  /** Fields copied only when truthy. */
  const TruthyFields: set<string> := {"status", "payment_date", "payment_method", "payment_reference"}

  /** Every key a patch can hold. */
  const PatchKeys: set<string> := DefinedFields + TruthyFields + {"updated_at"}

  predicate Copied(body: map<string, Json>, k: string)
    requires k in body
  {
    k in DefinedFields || (k in TruthyFields && JsonTruthy(body[k]))
  }

  predicate BadStatus(body: map<string, Json>) {
    "status" in body && JsonTruthy(body["status"]) && !(body["status"].JString? && body["status"].text in ValidStatuses)
  }

  /**
   * The update patch: None (400, nothing written) for a truthy status outside
   * the five valid ones; otherwise the supplied fields — the amount, rate,
   * gross profit and notes whenever present, the status and payment fields
   * only when truthy — plus the update time.
   */
  function BuildPatch(body: map<string, Json>, now: string): (r: Option<map<string, Json>>)
    ensures r.None? <==> BadStatus(body)
    ensures r.Some? ==> r.value.Keys <= PatchKeys
    ensures r.Some? ==> "updated_at" in r.value && r.value["updated_at"] == JString(now)
    ensures r.Some? ==> forall k :: k in r.value && k != "updated_at" ==> k in body && r.value[k] == body[k]
    ensures r.Some? ==> forall k :: k in body && k != "updated_at" ==> (k in r.value <==> Copied(body, k))
  {
    if BadStatus(body) then None
    else
      var copied := map k | k in body && k != "updated_at" && Copied(body, k) :: body[k];
      Some(copied["updated_at" := JString(now)])
  }

  /** A row after the patch is written: the patched fields replaced, all others as they were. */
  function ApplyPatch(row: map<string, Json>, patch: map<string, Json>): (r: map<string, Json>)
    ensures r.Keys == row.Keys + patch.Keys
    ensures forall k :: k in patch ==> r[k] == patch[k]
    ensures forall k :: k in row && k !in patch ==> r[k] == row[k]
  {
    row + patch
  }

  /**
   * An update never touches the commission's identity or period, and a null
   * status in the body leaves the stored status alone.
   */
  lemma UpdateKeepsIdentity(row: map<string, Json>, body: map<string, Json>, now: string)
    requires BuildPatch(body, now).Some?
    ensures var after := ApplyPatch(row, BuildPatch(body, now).value);
      forall k :: k in row && k in IdentityKeys ==> after[k] == row[k]
    ensures "status" in body && body["status"] == JNull && "status" in row ==>
      ApplyPatch(row, BuildPatch(body, now).value)["status"] == row["status"]
  {
    var patch := BuildPatch(body, now).value;
    IdentityNotPatchable();
    assert forall k :: k in IdentityKeys ==> k !in patch;
    if "status" in body && body["status"] == JNull {
      assert !Copied(body, "status");
      assert "status" !in patch;
    }
  }

  /** The commission's identity and period: the fields no update may change. */
  const IdentityKeys: set<string> := {"id", "agency_id", "service_id", "period_start", "period_end"}

  lemma IdentityNotPatchable()
    ensures forall k :: k in IdentityKeys ==> k !in PatchKeys
  {
    assert "service_id"[0] != "updated_at"[0];
    assert "period_end"[0] != "updated_at"[0];
    assert "period_start"[0] != "gross_profit"[0];
    assert "period_start"[1] != "payment_date"[1];
  }

  /** A valid status is written as given. */
  lemma ValidStatusWritten(body: map<string, Json>, now: string, s: string)
    requires "status" in body && body["status"] == JString(s) && s in ValidStatuses
    ensures BuildPatch(body, now).Some?
    ensures BuildPatch(body, now).value["status"] == JString(s)
  {
    assert s != "" by {
      assert forall k :: 0 <= k < |ValidStatuses| ==> ValidStatuses[k] != "";
    }
  }

  datatype UpdateResult = Updated | NoRow | UpdateFailed

  /** The update's status: 400 for a bad status, else 500 on a database error, 404 with no row, 200. */
  function UpdateStatus(body: map<string, Json>, now: string, result: UpdateResult): (s: int)
    ensures s == 400 <==> BuildPatch(body, now).None?
    ensures s == 200 <==> BuildPatch(body, now).Some? && result == Updated
    ensures BuildPatch(body, now).Some? ==> (s == 500 <==> result == UpdateFailed) && (s == 404 <==> result == NoRow)
  {
    if BuildPatch(body, now).None? then 400
    else match result
      case UpdateFailed => 500
      case NoRow => 404
      case Updated => 200
  }

  // ---------------------------------------------------------------------------
  // Listing statistics
  // ---------------------------------------------------------------------------

  datatype Row = Row(status: string, amount: Option<int>)

  function CountStatus(rows: seq<Row>, s: string): (n: nat)
    ensures n <= |rows|
    decreases |rows|
  {
    if rows == [] then 0 else (if rows[0].status == s then 1 else 0) + CountStatus(rows[1..], s)
  }

  /** The amounts of approved and paid rows, a missing amount counting zero. */
  function EarnedAmount(rows: seq<Row>): int
    decreases |rows|
  {
    if rows == [] then 0
    else (if rows[0].status in {"approved", "paid"} then NumberOr(rows[0].amount, 0) else 0) + EarnedAmount(rows[1..])
  }

  datatype Stats = Stats(total: nat, pending: nat, approved: nat, paid: nat, rejected: nat, totalAmount: int)

  /** The listing's statistics over the rows the query returned. */
  function ComputeStats(rows: seq<Row>): (r: Stats)
    ensures r.total == |rows|
    ensures r.pending + r.approved + r.paid + r.rejected <= r.total
    ensures r.pending == CountStatus(rows, "pending") && r.approved == CountStatus(rows, "approved")
    ensures r.paid == CountStatus(rows, "paid") && r.rejected == CountStatus(rows, "rejected")
    ensures r.totalAmount == EarnedAmount(rows)
  {
    CountsBounded(rows);
    Stats(|rows|, CountStatus(rows, "pending"), CountStatus(rows, "approved"), CountStatus(rows, "paid"),
          CountStatus(rows, "rejected"), EarnedAmount(rows))
  }

  lemma {:induction false} CountsBounded(rows: seq<Row>)
    ensures CountStatus(rows, "pending") + CountStatus(rows, "approved") + CountStatus(rows, "paid")
            + CountStatus(rows, "rejected") <= |rows|
    decreases |rows|
  {
    if rows != [] {
      CountsBounded(rows[1..]);
    }
  }

  /** Statistics of two pages together are the sums of each page's statistics. */
  lemma {:induction false} StatsAdditive(a: seq<Row>, b: seq<Row>)
    ensures var s := ComputeStats(a + b);
      var x := ComputeStats(a);
      var y := ComputeStats(b);
      && s.pending == x.pending + y.pending && s.approved == x.approved + y.approved
      && s.paid == x.paid + y.paid && s.rejected == x.rejected + y.rejected
      && s.totalAmount == x.totalAmount + y.totalAmount
    decreases |a|
  {
    if a != [] {
      assert (a + b)[1..] == a[1..] + b;
      assert (a + b)[0] == a[0];
      StatsAdditive(a[1..], b);
    } else {
      assert a + b == b;
    }
  }

  /** Pending, rejected and cancelled rows never add to the total amount. */
  lemma {:induction false} OnlyEarnedRowsCount(rows: seq<Row>)
    requires forall k :: 0 <= k < |rows| ==> rows[k].status !in {"approved", "paid"}
    ensures ComputeStats(rows).totalAmount == 0
    decreases |rows|
  {
    if rows != [] {
      OnlyEarnedRowsCount(rows[1..]);
    }
  }

  datatype Pagination = Pagination(limit: int, offset: int, total: nat)

  /** The listing's paging block: limit 100 and offset 0 by default, total the number of rows returned. */
  function ListPagination(limit: Option<int>, offset: Option<int>, rows: seq<Row>): (p: Pagination)
    ensures p.limit == NumberOr(limit, 100) && p.offset == NumberOr(offset, 0)
    ensures p.total == |rows| == ComputeStats(rows).total
  {
    Pagination(NumberOr(limit, 100), NumberOr(offset, 0), |rows|)
  }
}
