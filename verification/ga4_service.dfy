/**
 * The GA4 service of the server: the OAuth configuration guard of its factory,
 * the property listing (account summaries flattened into property records) and
 * the request bodies of the report, top-pages and realtime queries. The Google
 * Admin and Data APIs are oracles passed in as functions.
 */
module Ga4Service {
  import opened Wrappers
  import opened Js

  // ---------------------------------------------------------------- factory

  /** The three OAuth settings read from the environment. */
  datatype OAuthEnv = OAuthEnv(clientId: Option<string>, clientSecret: Option<string>, redirectUri: Option<string>)

  /** An OAuth client configured with the settings and the caller's tokens. */
  datatype Credentials = Credentials(
    clientId: string, clientSecret: string, redirectUri: string,
    accessToken: string, refreshToken: Option<string>)

  const ConfigErrorMessage := "OAuth configuration error: Missing GOOGLE_CLIENT_ID/GOOGLE_CLIENT_SECRET/GOOGLE_REDIRECT_URI"

  predicate Configured(env: OAuthEnv) {
    Truthy(env.clientId) && Truthy(env.clientSecret) && Truthy(env.redirectUri)
  }

  /**
   * `createAnalyticsService`: throws the configuration error unless all three settings
   * are present and non-empty; otherwise a client holding the settings and both tokens.
   */
  function CreateAnalyticsService(env: OAuthEnv, accessToken: string, refreshToken: Option<string>): (r: Result<Credentials, Thrown>)
    ensures r.Ok? <==> Configured(env)
    ensures r.Err? ==> r.error == PlainError(ConfigErrorMessage)
    ensures r.Ok? ==>
      && r.value.clientId == env.clientId.value
      && r.value.clientSecret == env.clientSecret.value
      && r.value.redirectUri == env.redirectUri.value
      && r.value.accessToken == accessToken && r.value.refreshToken == refreshToken
  {
    if !Configured(env) then Err(PlainError(ConfigErrorMessage))
    else Ok(Credentials(env.clientId.value, env.clientSecret.value, env.redirectUri.value, accessToken, refreshToken))
  }

  // ---------------------------------------------------------------- property listing

  datatype PropertySummary = PropertySummary(property: Option<string>, displayName: Option<string>)

  datatype AccountSummary = AccountSummary(name: Option<string>, propertySummaries: Option<seq<PropertySummary>>)

  /** `{ name, displayName, parent }`. */
  datatype PropertyRecord = PropertyRecord(name: Option<string>, displayName: Option<string>, parent: Option<string>)

  /** The two Admin API queries `getProperties` can issue. */
  datatype AdminRequest = ListAccountSummaries(pageSize: int) | ListProperties(filter: string)

  /** The `data` of an Admin API response. */
  datatype AdminResponse = AdminResponse(accountSummaries: Option<seq<AccountSummary>>, properties: Option<seq<PropertyRecord>>)

  const SummariesPageSize := 2000

  /** The records one account summary contributes: one per property summary, in order, parented by the account. */
  function PropertiesOf(summary: AccountSummary): (r: seq<PropertyRecord>)
    ensures |r| == |summary.propertySummaries.GetOr([])|
    ensures forall i | 0 <= i < |r| ::
      var p := summary.propertySummaries.value[i];
      r[i] == PropertyRecord(p.property, p.displayName, summary.name)
  {
    var ps := summary.propertySummaries.GetOr([]);
    seq(|ps|, i requires 0 <= i < |ps| => PropertyRecord(ps[i].property, ps[i].displayName, summary.name))
  }

  /** `items.flatMap(...)`: the records of every summary, summary by summary. */
  function FlattenSummaries(items: seq<AccountSummary>): seq<PropertyRecord> {
    if items == [] then [] else PropertiesOf(items[0]) + FlattenSummaries(items[1..])
  }

  /** The number of property summaries across all account summaries, a missing list counting as empty. */
  function PropertyCount(items: seq<AccountSummary>): nat {
    if items == [] then 0 else |items[0].propertySummaries.GetOr([])| + PropertyCount(items[1..])
  }

  lemma {:induction false} FlattenCount(items: seq<AccountSummary>)
    ensures |FlattenSummaries(items)| == PropertyCount(items)
  {
    if items != [] {
      FlattenCount(items[1..]);
    }
  }

  /** Flattening distributes over concatenation of the summaries. */
  lemma {:induction false} FlattenAppend(a: seq<AccountSummary>, b: seq<AccountSummary>)
    ensures FlattenSummaries(a + b) == FlattenSummaries(a) + FlattenSummaries(b)
  {
    if a == [] {
      assert a + b == b;
    } else {
      assert (a + b)[1..] == a[1..] + b;
      FlattenAppend(a[1..], b);
    }
  }

  /** Every record comes from some summary: its parent is that summary's name and its name one of its properties. */
  lemma {:induction false} FlattenOrigin(items: seq<AccountSummary>, k: nat)
    requires k < |FlattenSummaries(items)|
    ensures exists j, i | 0 <= j < |items| && 0 <= i < |items[j].propertySummaries.GetOr([])| ::
      FlattenSummaries(items)[k] == PropertyRecord(items[j].propertySummaries.value[i].property,
        items[j].propertySummaries.value[i].displayName, items[j].name)
  {
    var head := PropertiesOf(items[0]);
    if k < |head| {
      assert FlattenSummaries(items)[k] == head[k];
    } else {
      FlattenOrigin(items[1..], k - |head|);
      var j, i :| 0 <= j < |items[1..]| && 0 <= i < |items[1..][j].propertySummaries.GetOr([])| &&
        FlattenSummaries(items[1..])[k - |head|] == PropertyRecord(items[1..][j].propertySummaries.value[i].property,
          items[1..][j].propertySummaries.value[i].displayName, items[1..][j].name);
      assert items[1..][j] == items[j + 1];
    }
  }

  /** Which Admin query `getProperties` issues: a parent filter when an account is named, the summaries otherwise. */
  function AdminRequestFor(accountId: Option<string>): (q: AdminRequest)
    ensures q.ListProperties? <==> Truthy(accountId)
    ensures q.ListProperties? ==> q.filter == "parent:accounts/" + accountId.value
    ensures q.ListAccountSummaries? ==> q.pageSize == SummariesPageSize
  {
    if Truthy(accountId) then ListProperties("parent:accounts/" + accountId.value)
    else ListAccountSummaries(SummariesPageSize)
  }

  /**
   * `getProperties(accountId?)`: errors of the Admin API are rethrown; a missing
   * property list or summary list reads as empty.
   */
  function GetProperties(client: Credentials, accountId: Option<string>,
                         admin: (Credentials, AdminRequest) -> Outcome<AdminResponse>): (r: Outcome<seq<PropertyRecord>>)
    ensures admin(client, AdminRequestFor(accountId)).Threw? ==> r == Threw(admin(client, AdminRequestFor(accountId)).error)
    ensures admin(client, AdminRequestFor(accountId)).Returned? ==> r.Returned?
    ensures r.Returned? && Truthy(accountId) ==>
      r.value == admin(client, AdminRequestFor(accountId)).value.properties.GetOr([])
    ensures r.Returned? && !Truthy(accountId) ==>
      r.value == FlattenSummaries(admin(client, AdminRequestFor(accountId)).value.accountSummaries.GetOr([]))
  {
    var q := AdminRequestFor(accountId);
    match admin(client, q)
    case Threw(e) => Threw(e)
    case Returned(response) =>
      if q.ListProperties? then Returned(response.properties.GetOr([]))
      else Returned(FlattenSummaries(response.accountSummaries.GetOr([])))
  }

  // ---------------------------------------------------------------- report requests

  datatype DateRange = DateRange(startDate: string, endDate: string)

  datatype OrderBy = OrderBy(metricName: string, desc: bool)

  /** The Data API requests the service issues, with their bodies. */
  datatype DataRequest =
    | RunReport(property: string, dateRanges: seq<DateRange>, keepEmptyRows: bool,
                metrics: seq<string>, dimensions: seq<string>, orderBys: seq<OrderBy>, limit: Option<int>)
    | RunRealtimeReport(property: string, metrics: seq<string>, dimensions: seq<string>)

  const PropertyPrefix := "properties/"

  /** The resource name of a property, `properties/<id>`. */
  function PropertyPath(propertyId: string): string {
    PropertyPrefix + propertyId
  }

  const ReportMetrics := ["sessions", "activeUsers", "screenPageViews", "bounceRate", "averageSessionDuration", "conversions"]
  const ReportDimensions := ["date", "pagePath", "country"]
  const TopPagesMetrics := ["screenPageViews", "sessions", "bounceRate"]
  const TopPagesDimensions := ["pagePath", "pageTitle"]
  const TopPagesLimit := 20
  const RealtimeMetrics := ["activeUsers", "screenPageViews"]
  const RealtimeDimensions := ["country"]

  /** The body of `getReport`. */
  function ReportRequest(propertyId: string, startDate: string, endDate: string): DataRequest {
    RunReport(PropertyPath(propertyId), [DateRange(startDate, endDate)], true, ReportMetrics, ReportDimensions, [], None)
  }

  /** The body of `getTopPages`. */
  function TopPagesRequest(propertyId: string, startDate: string, endDate: string): DataRequest {
    RunReport(PropertyPath(propertyId), [DateRange(startDate, endDate)], true, TopPagesMetrics, TopPagesDimensions,
              [OrderBy("screenPageViews", true)], Some(TopPagesLimit))
  }

  /** The body of `getRealtimeReport`. */
  function RealtimeRequest(propertyId: string): DataRequest {
    RunRealtimeReport(PropertyPath(propertyId), RealtimeMetrics, RealtimeDimensions)
  }

  /**
   * Every request names the property as `properties/<id>` and carries the caller's
   * date range where it has one.
   */
  lemma RequestsNameTheProperty(propertyId: string, startDate: string, endDate: string)
    ensures forall q | q in {ReportRequest(propertyId, startDate, endDate), TopPagesRequest(propertyId, startDate, endDate), RealtimeRequest(propertyId)} ::
      q.property == PropertyPath(propertyId) && |q.property| == |PropertyPrefix| + |propertyId| &&
      q.property[|PropertyPrefix|..] == propertyId
    ensures ReportRequest(propertyId, startDate, endDate).dateRanges == [DateRange(startDate, endDate)]
    ensures TopPagesRequest(propertyId, startDate, endDate).dateRanges == [DateRange(startDate, endDate)]
  {
  }

  /**
   * Top pages are ordered by their first requested metric (page views), descending, and capped at
   * twenty rows.
   */
  lemma TopPagesShape(propertyId: string, startDate: string, endDate: string)
    ensures var q := TopPagesRequest(propertyId, startDate, endDate);
      && |q.orderBys| == 1 && q.orderBys[0].desc
      && q.orderBys[0].metricName in q.metrics && q.orderBys[0].metricName == q.metrics[0]
      && q.metrics[0] == "screenPageViews" && q.limit == Some(20)
  {
  }
}
