/**
 * The services an agency may refer customers to, with the agency's own
 * commission and referral rates merged over each service's defaults.
 *
 * The tables are sequences of rows; `services` is taken in name order, the
 * order the query asks the database for.
 */
module AgencyServices {
  import opened Wrappers
  import opened AgencyAuth

  datatype AgencyRow = AgencyRow(id: string, status: string)

  datatype Service = Service(id: string, name: string, status: string,
                             defaultCommissionRate: Option<real>, defaultReferralRate: Option<real>)

  /** A row of `agency_service_settings`: the agency's overrides for one service. */
  datatype Setting = Setting(agencyId: string, serviceId: string, commissionRate: Option<real>,
                             referralRate: Option<real>, isActive: Option<bool>)

  /** A service as listed to the agency. */
  datatype Offered = Offered(id: string, name: string, status: string,
                             commissionRate: Option<real>, referralRate: Option<real>, isActive: bool)

  /** `a ?? b`: the first operand unless it is null or undefined; a zero is kept. */
  function Coalesce<T>(a: Option<T>, b: Option<T>): (r: Option<T>)
    ensures a.Some? ==> r == a
    ensures a.None? ==> r == b
  {
    if a.Some? then a else b
  }

  /** `.single()` on agencies by id: the row when exactly one has that id. */
  function FindAgency(rows: Query<seq<AgencyRow>>, id: Option<string>): (r: Option<AgencyRow>)
    ensures r.Some? ==> id.Some? && rows.Rows? && r.value in rows.rows && r.value.id == id.value
    ensures r.Some? ==> forall a :: a in rows.rows && a.id == id.value ==> a == r.value
  {
    if id.None? || rows.QueryError? then None
    else
      var matches := WithId(rows.rows, id.value);
      if |matches| == 1 then
        assert matches[0] in matches;
        Some(matches[0])
      else None
  }

  function WithId(rows: seq<AgencyRow>, id: string): (r: seq<AgencyRow>)
    ensures forall a :: a in r <==> a in rows && a.id == id
    ensures |r| == 1 ==> forall a :: a in r ==> a == r[0]
  {
    if rows == [] then []
    else
      var rest := WithId(rows[1..], id);
      assert forall a :: a in rows <==> a == rows[0] || a in rows[1..];
      if rows[0].id == id then [rows[0]] + rest else rest
  }

  /** The services query: the active services, in the given order. */
  function ActiveServices(rows: seq<Service>): (r: seq<Service>)
    ensures forall s :: s in r <==> s in rows && s.status == "active"
    ensures |r| <= |rows|
  {
    if rows == [] then []
    else
      var rest := ActiveServices(rows[1..]);
      assert forall s :: s in rows <==> s == rows[0] || s in rows[1..];
      if rows[0].status == "active" then [rows[0]] + rest else rest
  }

  /**
   * The query keeps the given order: listing a concatenation concatenates
   * the listed parts, and a single service is listed exactly when active.
   */
  lemma {:induction false} ActiveServicesPreservesOrder(a: seq<Service>, b: seq<Service>, x: Service)
    ensures ActiveServices(a + b) == ActiveServices(a) + ActiveServices(b)
    ensures ActiveServices([x]) == if x.status == "active" then [x] else []
    decreases |a|
  {
    assert [x][1..] == [];
    if a == [] {
      assert a + b == b;
    } else {
      var head := if a[0].status == "active" then [a[0]] else [];
      assert (a + b)[0] == a[0];
      assert (a + b)[1..] == a[1..] + b;
      assert ActiveServices(a + b) == head + ActiveServices(a[1..] + b);
      assert ActiveServices(a) == head + ActiveServices(a[1..]);
      ActiveServicesPreservesOrder(a[1..], b, x);
      assert head + (ActiveServices(a[1..]) + ActiveServices(b)) == (head + ActiveServices(a[1..])) + ActiveServices(b);
    }
  }

  predicate SettingFor(s: Setting, agencyId: string, serviceId: string) {
    s.agencyId == agencyId && s.serviceId == serviceId
  }

  /** Position `k` holds the first of the agency's settings for the service. */
  predicate FirstSettingAt(settings: seq<Setting>, agencyId: string, serviceId: string, k: int) {
    && 0 <= k < |settings|
    && SettingFor(settings[k], agencyId, serviceId)
    && forall j :: 0 <= j < k ==> !SettingFor(settings[j], agencyId, serviceId)
  }

  function FirstSettingFrom(settings: seq<Setting>, agencyId: string, serviceId: string, i: nat): (r: Option<nat>)
    requires i <= |settings|
    ensures r.Some? ==> (
      && i <= r.value < |settings| && SettingFor(settings[r.value], agencyId, serviceId)
      && forall j :: i <= j < r.value ==> !SettingFor(settings[j], agencyId, serviceId))
    ensures r.None? ==> forall j :: i <= j < |settings| ==> !SettingFor(settings[j], agencyId, serviceId)
    decreases |settings| - i
  {
    if i == |settings| then None
    else if SettingFor(settings[i], agencyId, serviceId) then Some(i)
    else FirstSettingFrom(settings, agencyId, serviceId, i + 1)
  }

  /** `settings?.find(...)`: the first of the agency's settings for the service. */
  function FindSetting(settings: seq<Setting>, agencyId: string, serviceId: string): (r: Option<Setting>)
    ensures r.None? ==> forall s :: s in settings ==> !SettingFor(s, agencyId, serviceId)
    ensures r.Some? ==> exists k :: FirstSettingAt(settings, agencyId, serviceId, k) && settings[k] == r.value
  {
    match FirstSettingFrom(settings, agencyId, serviceId, 0)
    case None => None
    case Some(k) =>
      assert FirstSettingAt(settings, agencyId, serviceId, k);
      Some(settings[k])
  }

  /**
   * One service merged with the agency's setting: a rate the setting gives
   * (zero included) wins over the default, and a service without a setting
   * is active for the agency.
   */
  function Merge(s: Service, setting: Option<Setting>): (o: Offered)
    ensures o.id == s.id && o.name == s.name && o.status == s.status
    ensures setting.Some? && setting.value.commissionRate.Some? ==> o.commissionRate == setting.value.commissionRate
    ensures !(setting.Some? && setting.value.commissionRate.Some?) ==> o.commissionRate == s.defaultCommissionRate
    ensures setting.Some? && setting.value.referralRate.Some? ==> o.referralRate == setting.value.referralRate
    ensures !(setting.Some? && setting.value.referralRate.Some?) ==> o.referralRate == s.defaultReferralRate
    ensures o.isActive <==> !(setting.Some? && setting.value.isActive == Some(false))
  {
    var commission := if setting.Some? then setting.value.commissionRate else None;
    var referral := if setting.Some? then setting.value.referralRate else None;
    var active := if setting.Some? then setting.value.isActive else None;
    Offered(s.id, s.name, s.status,
            Coalesce(commission, s.defaultCommissionRate),
            Coalesce(referral, s.defaultReferralRate),
            Coalesce(active, Some(true)).value)
  }

  datatype Listing = Listing(status: int, services: seq<Offered>)

  /**
   * The handler: GET only; a bearer token that verifies (any verification
   * error is 401); the agency must exist (404) and be active (403); the
   * services query must work (500). A failed settings query is only logged
   * and every service then shows its defaults.
   */
  function ListAgencyServices(httpMethod: string, authorization: Option<string>, verify: string -> Jwt,
                              agencies: Query<seq<AgencyRow>>, services: Query<seq<Service>>,
                              settings: Query<seq<Setting>>): (r: Listing)
    ensures httpMethod == "OPTIONS" ==> r == Listing(200, [])
    ensures httpMethod != "OPTIONS" && httpMethod != "GET" ==> r == Listing(405, [])
    ensures httpMethod == "GET" && BearerToken(authorization).None? ==> r == Listing(401, [])
    ensures (&& httpMethod == "GET" && BearerToken(authorization).Some?
             && !verify(BearerToken(authorization).value).Decoded?) ==> r == Listing(401, [])
    ensures r.status == 200 && httpMethod == "GET" ==>
      && BearerToken(authorization).Some?
      && var claim := verify(BearerToken(authorization).value);
         && claim.Decoded? && claim.agencyId.Some?
         && FindAgency(agencies, claim.agencyId).Some? && FindAgency(agencies, claim.agencyId).value.status == "active"
         && services.Rows?
         && var listed := ActiveServices(services.rows);
            && |r.services| == |listed|
            && forall k :: 0 <= k < |listed| ==>
                 r.services[k] == Merge(listed[k], if settings.Rows? then FindSetting(settings.rows, claim.agencyId.value, listed[k].id) else None)
    ensures (&& httpMethod == "GET" && BearerToken(authorization).Some?
             && verify(BearerToken(authorization).value).Decoded?) ==>
      var agency := FindAgency(agencies, verify(BearerToken(authorization).value).agencyId);
      && (agency.None? ==> r.status == 404)
      && (agency.Some? && agency.value.status != "active" ==> r.status == 403)
      && (agency.Some? && agency.value.status == "active" ==> (r.status == 500 <==> services.QueryError?))
      && (agency.Some? && agency.value.status == "active" && services.Rows? ==> r.status == 200)
  {
    if httpMethod == "OPTIONS" then Listing(200, [])
    else if httpMethod != "GET" then Listing(405, [])
    else match BearerToken(authorization)
      case None => Listing(401, [])
      case Some(token) =>
        match verify(token)
        case Malformed => Listing(401, [])
        case OtherJwtError => Listing(401, [])
        case Decoded(agencyId, _) =>
          match FindAgency(agencies, agencyId)
          case None => Listing(404, [])
          case Some(agency) =>
            if agency.status != "active" then Listing(403, [])
            else if services.QueryError? then Listing(500, [])
            else
              var listed := ActiveServices(services.rows);
              var mine := if settings.Rows? then settings.rows else [];
              Listing(200, seq(|listed|, k requires 0 <= k < |listed| =>
                                 Merge(listed[k], FindSetting(mine, agencyId.value, listed[k].id))))
  }

  /** A rate of zero set for the agency is listed as zero, not replaced by the default. */
  lemma ZeroRateKept(s: Service, setting: Setting)
    requires setting.commissionRate == Some(0.0)
    ensures Merge(s, Some(setting)).commissionRate == Some(0.0)
  {
  }

  /** When the settings cannot be read, every service is listed with its defaults and as active. */
  lemma SettingsErrorShowsDefaults(authorization: Option<string>, verify: string -> Jwt,
                                   agencies: Query<seq<AgencyRow>>, services: Query<seq<Service>>)
    requires ListAgencyServices("GET", authorization, verify, agencies, services, QueryError).status == 200
    ensures var r := ListAgencyServices("GET", authorization, verify, agencies, services, QueryError);
      services.Rows? && |r.services| == |ActiveServices(services.rows)| &&
      forall k :: 0 <= k < |r.services| ==>
        var s := ActiveServices(services.rows)[k];
        r.services[k].commissionRate == s.defaultCommissionRate &&
        r.services[k].referralRate == s.defaultReferralRate && r.services[k].isActive
  {
  }
}
