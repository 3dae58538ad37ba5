/**
 * The server's `/api/analytics/google` router: date-parameter resolution, bearer
 * token extraction, error-detail selection and status mapping, and each handler's
 * decision between a 400, 401 or 500 reply and a success envelope. Handlers are
 * functions of the request and of the oracles they consult (the clock's current
 * day, `decodeURIComponent`, and the Google APIs); each returns the response and
 * the provider calls it made, in order.
 */
module AnalyticsRoutes {
  import opened Wrappers
  import opened Text
  import opened Js
  import opened Calendar
  import opened Ga4Service

  // ---------------------------------------------------------------- dates

  /** `toISODate`: the year as `String` renders it, month and day padded to two digits. */
  function ToISODate(d: CalendarDate): string
    requires ValidDate(d)
  {
    IntToString(d.year) + "-" + PadStart2(NatToString(d.month)) + "-" + PadStart2(NatToString(d.day))
  }

  /** `/^\d{4}-\d{2}-\d{2}$/`. */
  predicate IsIsoDateShape(s: string) {
    |s| == 10 && AllDigits(s[..4]) && s[4] == '-' && AllDigits(s[5..7]) && s[7] == '-' && AllDigits(s[8..])
  }

  /** Reads the three numbers of a `YYYY-MM-DD` string, without checking that the date exists. */
  function ParseIsoDate(s: string): CalendarDate
    requires IsIsoDateShape(s)
  {
    CalendarDate(DigitsValue(s[..4]), DigitsValue(s[5..7]), DigitsValue(s[8..]))
  }

  /** For four-digit years `toISODate` writes the `YYYY-MM-DD` shape, and reading it back gives the date. */
  lemma ToISODateRoundTrip(d: CalendarDate)
    requires ValidDate(d) && 1000 <= d.year <= 9999
    ensures IsIsoDateShape(ToISODate(d)) && ParseIsoDate(ToISODate(d)) == d
  {
    var y := NatToString(d.year);
    var m := PadStart2(NatToString(d.month));
    var dd := PadStart2(NatToString(d.day));
    NatToStringFourDigits(d.year);
    NatToStringRoundTrip(d.year);
    PadStart2Value(d.month);
    PadStart2Value(d.day);
    var s := ToISODate(d);
    assert s == y + "-" + m + "-" + dd;
    assert s[..4] == y;
    assert s[5..7] == m;
    assert s[8..] == dd;
  }

  /** The relative keywords and how many days before today each stands for. */
  const RelativeDays: map<string, nat> :=
    map["today" := 0, "7daysAgo" := 7, "30daysAgo" := 30, "90daysAgo" := 90, "365daysAgo" := 365]

  /**
   * `resolveDateParam(value, fallback)` with the keyword table consulted by its own
   * keys only: the fallback for a missing or empty value, the ISO date of a keyword,
   * a `YYYY-MM-DD`-shaped value unchanged, and the fallback for anything else.
   */
  function ResolveDateParam(value: Option<string>, fallback: string, today: CalendarDate): (r: string)
    requires ValidDate(today)
    ensures !Truthy(value) ==> r == fallback
    ensures Truthy(value) && value.value !in RelativeDays && !IsIsoDateShape(value.value) ==> r == fallback
  {
    if !Truthy(value) then fallback
    else if value.value in RelativeDays then ToISODate(DaysAgo(today, RelativeDays[value.value]))
    else if IsIsoDateShape(value.value) then value.value
    else fallback
  }

  /** No keyword has the `YYYY-MM-DD` shape. */
  lemma KeywordsAreNotIsoShaped(k: string)
    requires k in RelativeDays
    ensures !IsIsoDateShape(k)
  {
  }

  /**
   * For a keyword, the result is a `YYYY-MM-DD` date that lies exactly that many days
   * before today (while the years stay four-digit).
   */
  lemma ResolveKeyword(k: string, fallback: string, today: CalendarDate)
    requires ValidDate(today) && 1000 + 365 <= today.year <= 9999
    requires k in RelativeDays
    ensures var r := ResolveDateParam(Some(k), fallback, today);
      IsIsoDateShape(r) && ValidDate(ParseIsoDate(r)) && DaysAhead(ParseIsoDate(r), RelativeDays[k]) == today
  {
    var n := RelativeDays[k];
    var past := DaysAgo(today, n);
    ToISODateRoundTrip(past);
    DaysAheadOfDaysAgo(today, n);
  }

  /** A value of the `YYYY-MM-DD` shape passes through unchanged, even when it names no real day. */
  lemma ResolveIsoPassThrough(value: string, fallback: string, today: CalendarDate)
    requires ValidDate(today) && IsIsoDateShape(value)
    ensures ResolveDateParam(Some(value), fallback, today) == value
  {
    assert value !in RelativeDays;
  }

  /** "2024-13-45" is returned as is. */
  lemma ResolveImpossibleDate(fallback: string, today: CalendarDate)
    requires ValidDate(today)
    ensures ResolveDateParam(Some("2024-13-45"), fallback, today) == "2024-13-45"
  {
    ResolveIsoPassThrough("2024-13-45", fallback, today);
  }

  /** '730daysAgo' is not a keyword and not a date, so it resolves to the fallback. */
  lemma Resolve730DaysAgo(fallback: string, today: CalendarDate)
    requires ValidDate(today)
    ensures ResolveDateParam(Some("730daysAgo"), fallback, today) == fallback
  {
    assert !IsIsoDateShape("730daysAgo");
  }

  /** The result is always an absolute date or the fallback, and resolving an absolute result again changes nothing. */
  lemma ResolveIsAbsoluteOrFallback(value: Option<string>, fallback: string, fallback2: string, today: CalendarDate)
    requires ValidDate(today) && 1000 + 365 <= today.year <= 9999
    ensures var r := ResolveDateParam(value, fallback, today);
      (r == fallback || IsIsoDateShape(r)) &&
      (IsIsoDateShape(r) ==> ResolveDateParam(Some(r), fallback2, today) == r)
  {
    var r := ResolveDateParam(value, fallback, today);
    if Truthy(value) && value.value in RelativeDays {
      ResolveKeyword(value.value, fallback, today);
    }
    if IsIsoDateShape(r) {
      ResolveIsoPassThrough(r, fallback2, today);
    }
  }

  // ---------------------------------------------------------------- the keyword table as written

  /** What calling a member of the keyword table does, when the table's own keys do not hold the value. */
  datatype JsCall = ReturnsString(s: string) | ReturnsNonString(what: string) | ThrowsTypeError

  /**
   * A lookup `mapping[value]` on an object literal also finds the members every object
   * inherits; calling one with the table as `this` and no arguments gives these results.
   */
  function InheritedMemberCall(name: string): Option<JsCall> {
    if name == "toString" || name == "toLocaleString" then Some(ReturnsString("[object Object]"))
    else if name == "valueOf" then Some(ReturnsNonString("the keyword table itself"))
    else if name == "constructor" then Some(ReturnsNonString("a new empty object"))
    else if name == "hasOwnProperty" || name == "isPrototypeOf" || name == "propertyIsEnumerable" then Some(ReturnsNonString("false"))
    else if name == "__lookupGetter__" || name == "__lookupSetter__" then Some(ReturnsNonString("undefined"))
    else if name == "__defineGetter__" || name == "__defineSetter__" || name == "__proto__" then Some(ThrowsTypeError)
    else None
  }

  /** `resolveDateParam` as written: the keyword lookup also reaches inherited members. */
  function ResolveDateParamAsWritten(value: Option<string>, fallback: string, today: CalendarDate): JsCall
    requires ValidDate(today)
  {
    if !Truthy(value) then ReturnsString(fallback)
    else if value.value in RelativeDays then ReturnsString(ToISODate(DaysAgo(today, RelativeDays[value.value])))
    else if InheritedMemberCall(value.value).Some? then InheritedMemberCall(value.value).value
    else if IsIsoDateShape(value.value) then ReturnsString(value.value)
    else ReturnsString(fallback)
  }

  /**
   * `startDate=toString` resolves to "[object Object]" as written, where a value that is
   * neither a keyword nor a date should give the fallback; `__proto__` even throws.
   */
  lemma InheritedKeyFinding(fallback: string, today: CalendarDate)
    requires ValidDate(today)
    ensures ResolveDateParamAsWritten(Some("toString"), fallback, today) == ReturnsString("[object Object]")
    ensures ResolveDateParamAsWritten(Some("__proto__"), fallback, today) == ThrowsTypeError
    ensures ResolveDateParam(Some("toString"), fallback, today) == fallback
    ensures ResolveDateParam(Some("__proto__"), fallback, today) == fallback
  {
    assert !IsIsoDateShape("toString");
    assert !IsIsoDateShape("__proto__");
  }

  /** Away from the inherited member names, the code as written and the corrected resolution agree. */
  lemma AsWrittenAgreesElsewhere(value: Option<string>, fallback: string, today: CalendarDate)
    requires ValidDate(today)
    requires !Truthy(value) || InheritedMemberCall(value.value).None?
    ensures ResolveDateParamAsWritten(value, fallback, today) == ReturnsString(ResolveDateParam(value, fallback, today))
  {
  }

  // ---------------------------------------------------------------- tokens and errors

  datatype Tokens = Tokens(accessToken: string, refreshToken: Option<string>)

  const BearerPrefix := "Bearer "
  const MissingTokenMessage := "Access token is required"

  /**
   * `extractTokens`: the Authorization header with its first "Bearer " removed (wherever
   * it occurs); throws when the header is missing or nothing is left.
   */
  function ExtractTokens(authorization: Option<string>, refreshToken: Option<string>): (r: Result<Tokens, Thrown>)
    ensures r.Err? <==> authorization.None? || ReplaceFirst(authorization.value, BearerPrefix, "") == ""
    ensures r.Err? ==> r.error == PlainError(MissingTokenMessage)
    ensures r.Ok? ==> r.value == Tokens(ReplaceFirst(authorization.value, BearerPrefix, ""), refreshToken)
  {
    if authorization.None? then Err(PlainError(MissingTokenMessage))
    else
      var access := ReplaceFirst(authorization.value, BearerPrefix, "");
      if access == "" then Err(PlainError(MissingTokenMessage)) else Ok(Tokens(access, refreshToken))
  }

  /** "Bearer <t>" yields t, and "Bearer " alone is rejected. */
  lemma ExtractBearer(t: string, refreshToken: Option<string>)
    ensures t != "" ==> ExtractTokens(Some(BearerPrefix + t), refreshToken) == Ok(Tokens(t, refreshToken))
    ensures ExtractTokens(Some(BearerPrefix), refreshToken).Err?
  {
    ReplaceFirstAtStart(BearerPrefix, t);
    ReplaceFirstAtStart(BearerPrefix, "");
    assert BearerPrefix + "" == BearerPrefix;
  }

  /** The prefix is removed wherever it first occurs: "x Bearer y" yields "x y". */
  lemma ExtractBearerInside()
    ensures ExtractTokens(Some("x Bearer y"), None) == Ok(Tokens("x y", None))
  {
    var s := "x Bearer y";
    assert OccursAt(s, BearerPrefix, 2);
    assert s[0..7][0] == 'x' && s[1..8][0] == ' ';
    assert !OccursAt(s, BearerPrefix, 0) && !OccursAt(s, BearerPrefix, 1);
    assert IndexOfFrom(s, BearerPrefix, 0) == Some(2);
    assert ReplaceFirst(s, BearerPrefix, "") == s[..2] + "" + s[9..];
    assert s[..2] + "" + s[9..] == "x y";
  }

  /** `getGoogleErrorDetails`: the provider's embedded error, else the message, else 'Unknown error'. */
  function GetGoogleErrorDetails(e: Thrown): (d: Details)
    ensures e.responseError.Some? && DetailsTruthy(e.responseError.value) ==> d == e.responseError.value
    ensures !(e.responseError.Some? && DetailsTruthy(e.responseError.value)) && Truthy(e.message) ==> d == Text(e.message.value)
    ensures !(e.responseError.Some? && DetailsTruthy(e.responseError.value)) && !Truthy(e.message) ==> d == Text("Unknown error")
    ensures DetailsTruthy(d)
  {
    if e.responseError.Some? && DetailsTruthy(e.responseError.value) then e.responseError.value
    else if Truthy(e.message) then Text(e.message.value)
    else Text("Unknown error")
  }

  /** `details?.code === 401 ? 401 : 500`. */
  function StatusFor(d: Details): (status: int)
    ensures status == 401 <==> d.ErrorObject? && d.code == Some(401)
    ensures status == 401 || status == 500
  {
    if d.ErrorObject? && d.code == Some(401) then 401 else 500
  }

  /** An error thrown by the server itself (missing token, missing configuration) maps to 500, never 401. */
  lemma PlainErrorsAre500(message: string)
    ensures StatusFor(GetGoogleErrorDetails(PlainError(message))) == 500
  {
  }

  // ---------------------------------------------------------------- handlers

  datatype Route =
    | Ga4Properties
    | Ga4Realtime(propertyId: string)
    | Ga4Report(propertyId: string, startDate: Option<string>, endDate: Option<string>)
    | Ga4TopPages(propertyId: string, startDate: Option<string>, endDate: Option<string>)
    | GscSites
    | GscSearchAnalytics(siteUrl: Option<string>, startDate: Option<string>, endDate: Option<string>)
    | GscTopQueries(siteUrl: Option<string>, startDate: Option<string>, endDate: Option<string>)
    | GscTopPages(siteUrl: Option<string>, startDate: Option<string>, endDate: Option<string>)
    | GscTimeseries(siteUrl: Option<string>, startDate: Option<string>, endDate: Option<string>)
  {
    predicate IsSearchConsoleQuery() {
      GscSearchAnalytics? || GscTopQueries? || GscTopPages? || GscTimeseries?
    }
  }

  /** A request: the route with its parameters, the Authorization header and the `x-refresh-token` header. */
  datatype Request = Request(route: Route, authorization: Option<string>, refreshToken: Option<string>)

  /** The Search Console queries; their bodies are fixed by the Search Console service. */
  datatype GscRequest =
    | ListSites
    | SearchAnalytics(siteUrl: string, startDate: string, endDate: string)
    | TopQueries(siteUrl: string, startDate: string, endDate: string)
    | TopPages(siteUrl: string, startDate: string, endDate: string)
    | SearchAnalyticsByDate(siteUrl: string, startDate: string, endDate: string)

  /** A call to a Google API, with the client it was made through. */
  datatype ProviderCall =
    | AdminCall(client: Credentials, admin: AdminRequest)
    | DataCall(client: Credentials, data: DataRequest)
    | SearchConsoleCall(client: Credentials, gsc: GscRequest)

  datatype Payload<T> = PropertyList(properties: seq<PropertyRecord>) | ProviderData(data: T)

  /** `{ success: true, data }` or `{ success: false, error, details? }`. */
  datatype Envelope<T> = Success(data: T) | Failure(error: string, details: Option<Details>)

  datatype Response<T> = Response(status: int, body: Envelope<Payload<T>>)

  datatype Handled<T> = Handled(response: Response<T>, calls: seq<ProviderCall>)

  /**
   * What a handler consults besides the request: the OAuth settings, today's date,
   * `decodeURIComponent` (`None` when it throws), the Admin API and the other APIs.
   */
  datatype Context<T> = Context(
    env: OAuthEnv, today: CalendarDate, decodeUri: string -> Option<string>,
    admin: (Credentials, AdminRequest) -> Outcome<AdminResponse>,
    provider: ProviderCall -> Outcome<T>)

  const SiteUrlRequired := "Site URL is required"
  const UriMalformed := "URI malformed"

  function FailureLabel(route: Route): string {
    match route
    case Ga4Properties => "Failed to fetch GA4 properties"
    case Ga4Realtime(_) => "Failed to fetch realtime data"
    case Ga4Report(_, _, _) => "Failed to fetch analytics report"
    case Ga4TopPages(_, _, _) => "Failed to fetch top pages"
    case GscSites => "Failed to fetch Search Console sites"
    case GscSearchAnalytics(_, _, _) => "Failed to fetch search analytics"
    case GscTopQueries(_, _, _) => "Failed to fetch top queries"
    case GscTopPages(_, _, _) => "Failed to fetch top pages"
    case GscTimeseries(_, _, _) => "Failed to fetch search analytics timeseries"
  }

  /** The `catch` block: details from the error, 401 or 500 by their code. */
  function Caught<T>(route: Route, e: Thrown): Response<T> {
    var d := GetGoogleErrorDetails(e);
    Response(StatusFor(d), Failure(FailureLabel(route), Some(d)))
  }

  /** `extractTokens` followed by the service factory. */
  function Connect(req: Request, env: OAuthEnv): Result<Credentials, Thrown> {
    match ExtractTokens(req.authorization, req.refreshToken)
    case Err(e) => Err(e)
    case Ok(t) => CreateAnalyticsService(env, t.accessToken, t.refreshToken)
  }

  /** A query parameter with a destructuring default: only an absent value takes the default. */
  function WithDefault(o: Option<string>, d: string): string {
    if o.Some? then o.value else d
  }

  /** The site URL after the optional `decodeURIComponent` of the route. */
  function SiteOf<T>(route: Route, ctx: Context<T>): Result<Option<string>, Thrown>
    requires route.IsSearchConsoleQuery()
  {
    if route.GscSearchAnalytics? || route.GscTimeseries? then
      match route.siteUrl
      case None => Ok(None)
      case Some(raw) =>
        match ctx.decodeUri(raw)
        case None => Err(PlainError(UriMalformed))
        case Some(decoded) => Ok(Some(decoded))
    else Ok(route.siteUrl)
  }

  function GscQueryFor(route: Route, site: string, startDate: string, endDate: string): GscRequest
    requires route.IsSearchConsoleQuery()
  {
    if route.GscSearchAnalytics? then SearchAnalytics(site, startDate, endDate)
    else if route.GscTopQueries? then TopQueries(site, startDate, endDate)
    else if route.GscTopPages? then TopPages(site, startDate, endDate)
    else SearchAnalyticsByDate(site, startDate, endDate)
  }

  /**
   * The message of the plain `Error` each Search Console service method throws in place of
   * whatever the API threw.
   */
  function SearchConsoleServiceMessage(q: GscRequest): string {
    match q
    case ListSites => "Failed to fetch Search Console sites"
    case SearchAnalytics(_, _, _) => "Failed to fetch search analytics data"
    case TopQueries(_, _, _) => "Failed to fetch top search queries"
    case TopPages(_, _, _) => "Failed to fetch top pages from Search Console"
    case SearchAnalyticsByDate(_, _, _) => "Failed to fetch search analytics timeseries data"
  }

  /**
   * What the awaited service call throws: the GA4 service lets the API's error through,
   * the Search Console service replaces it with a plain `Error`.
   */
  function ServiceError(call: ProviderCall, e: Thrown): (t: Thrown)
    ensures call.SearchConsoleCall? ==> t == PlainError(SearchConsoleServiceMessage(call.gsc))
    ensures !call.SearchConsoleCall? ==> t == e
  {
    if call.SearchConsoleCall? then PlainError(SearchConsoleServiceMessage(call.gsc)) else e
  }

  /** Issues one provider call and wraps what it returns or throws. */
  function CallProvider<T>(route: Route, call: ProviderCall, ctx: Context<T>): Handled<T> {
    match ctx.provider(call)
    case Returned(v) => Handled(Response(200, Success(ProviderData(v))), [call])
    case Threw(e) => Handled(Caught(route, ServiceError(call, e)), [call])
  }

  /** The handler of each route. */
  function Handle<T>(req: Request, ctx: Context<T>): (h: Handled<T>)
    requires ValidDate(ctx.today)
    ensures |h.calls| <= 1
    ensures h.response.status in {200, 400, 401, 500}
  {
    var route := req.route;
    if route.IsSearchConsoleQuery() then
      match SiteOf(route, ctx)
      case Err(e) => Handled(Caught(route, e), [])
      case Ok(site) =>
        var startDate := ResolveDateParam(route.startDate, ResolveDateParam(Some("30daysAgo"), "", ctx.today), ctx.today);
        var endDate := ResolveDateParam(route.endDate, ResolveDateParam(Some("today"), "", ctx.today), ctx.today);
        if !Truthy(site) then Handled(Response(400, Failure(SiteUrlRequired, None)), [])
        else
          match Connect(req, ctx.env)
          case Err(e) => Handled(Caught(route, e), [])
          case Ok(client) => CallProvider(route, SearchConsoleCall(client, GscQueryFor(route, site.value, startDate, endDate)), ctx)
    else
      match Connect(req, ctx.env)
      case Err(e) => Handled(Caught(route, e), [])
      case Ok(client) =>
        match route
        case Ga4Properties =>
          var call := AdminCall(client, AdminRequestFor(None));
          (match GetProperties(client, None, ctx.admin)
           case Returned(records) => Handled(Response(200, Success(PropertyList(records))), [call])
           case Threw(e) => Handled(Caught(route, e), [call]))
        case Ga4Realtime(id) => CallProvider(route, DataCall(client, RealtimeRequest(id)), ctx)
        case Ga4Report(id, s, e) =>
          CallProvider(route, DataCall(client, ReportRequest(id, WithDefault(s, "30daysAgo"), WithDefault(e, "today"))), ctx)
        case Ga4TopPages(id, s, e) =>
          CallProvider(route, DataCall(client, TopPagesRequest(id, WithDefault(s, "30daysAgo"), WithDefault(e, "today"))), ctx)
        case GscSites => CallProvider(route, SearchConsoleCall(client, ListSites), ctx)
  }

  /** Whether the API that served a call returned rather than threw. */
  predicate CallReturned<T>(ctx: Context<T>, call: ProviderCall) {
    if call.AdminCall? then ctx.admin(call.client, call.admin).Returned? else ctx.provider(call).Returned?
  }

  /** Success exactly when a provider call was made and returned; the success envelope is always 200. */
  lemma SuccessIffProviderReturned<T>(req: Request, ctx: Context<T>)
    requires ValidDate(ctx.today)
    ensures var h := Handle(req, ctx);
      (h.response.status == 200 <==> h.response.body.Success?) &&
      (h.response.body.Success? <==> |h.calls| == 1 && CallReturned(ctx, h.calls[0]))
  {
    if req.route.IsSearchConsoleQuery() {
      SearchConsoleSuccessIffReturned(req, ctx);
    } else {
      Ga4SuccessIffReturned(req, ctx);
    }
  }

  lemma SearchConsoleSuccessIffReturned<T>(req: Request, ctx: Context<T>)
    requires ValidDate(ctx.today) && req.route.IsSearchConsoleQuery()
    ensures var h := Handle(req, ctx);
      (h.response.status == 200 <==> h.response.body.Success?) &&
      (h.response.body.Success? <==> |h.calls| == 1 && CallReturned(ctx, h.calls[0]))
  {
  }

  lemma Ga4SuccessIffReturned<T>(req: Request, ctx: Context<T>)
    requires ValidDate(ctx.today) && !req.route.IsSearchConsoleQuery()
    ensures var h := Handle(req, ctx);
      (h.response.status == 200 <==> h.response.body.Success?) &&
      (h.response.body.Success? <==> |h.calls| == 1 && CallReturned(ctx, h.calls[0]))
  {
  }

  /** Without an Authorization header no provider call is made, and the reply is 500, or 400 for a missing site. */
  lemma NoBearerNoProviderCall<T>(req: Request, ctx: Context<T>)
    requires ValidDate(ctx.today) && req.authorization.None?
    ensures var h := Handle(req, ctx);
      h.calls == [] && h.response.status in {400, 500} && h.response.status != 401
  {
  }

  /**
   * A Search Console query without a site URL gets 400 'Site URL is required' before any
   * token or configuration check and without a provider call.
   */
  lemma MissingSiteIs400<T>(req: Request, ctx: Context<T>)
    requires ValidDate(ctx.today) && req.route.IsSearchConsoleQuery() && req.route.siteUrl.None?
    ensures Handle(req, ctx) == Handled(Response(400, Failure(SiteUrlRequired, None)), [])
  {
  }

  /** A 401 reply happens only after a provider call, and only when the provider's error carries code 401. */
  lemma Status401ComesFromProvider<T>(req: Request, ctx: Context<T>)
    requires ValidDate(ctx.today)
    ensures var h := Handle(req, ctx);
      h.response.status == 401 ==>
        |h.calls| == 1 && h.response.body.Failure? && h.response.body.details.Some? &&
        h.response.body.details.value.ErrorObject? && h.response.body.details.value.code == Some(401)
  {
    var h := Handle(req, ctx);
    if h.response.status == 401 && h.calls == [] {
      assert false;
    }
  }

  /**
   * Search Console routes never reply 401: their service rethrows every API error as a
   * plain `Error`, whose details carry no code, so a failed call replies 500 with the
   * service's message as details.
   */
  lemma SearchConsoleNever401<T>(req: Request, ctx: Context<T>)
    requires ValidDate(ctx.today) && (req.route.IsSearchConsoleQuery() || req.route.GscSites?)
    ensures var h := Handle(req, ctx);
      && h.response.status != 401
      && (|h.calls| == 1 && !CallReturned(ctx, h.calls[0]) ==>
            h.calls[0].SearchConsoleCall? &&
            h.response == Response(500, Failure(FailureLabel(req.route), Some(Text(SearchConsoleServiceMessage(h.calls[0].gsc))))))
  {
    var route := req.route;
    if route.GscSites? {
      match Connect(req, ctx.env)
      case Err(e) => ConnectErrorsArePlain(req, ctx.env);
      case Ok(client) => SearchConsoleCallFailsWith500(route, SearchConsoleCall(client, ListSites), ctx);
    } else {
      match SiteOf(route, ctx)
      case Err(e) => PlainErrorsAre500(UriMalformed);
      case Ok(site) =>
        var startDate := ResolveDateParam(route.startDate, ResolveDateParam(Some("30daysAgo"), "", ctx.today), ctx.today);
        var endDate := ResolveDateParam(route.endDate, ResolveDateParam(Some("today"), "", ctx.today), ctx.today);
        if Truthy(site) {
          match Connect(req, ctx.env)
          case Err(e) => ConnectErrorsArePlain(req, ctx.env);
          case Ok(client) =>
            SearchConsoleCallFailsWith500(route, SearchConsoleCall(client, GscQueryFor(route, site.value, startDate, endDate)), ctx);
        }
    }
  }

  /** Token extraction and the service factory only throw plain errors, which map to 500. */
  lemma ConnectErrorsArePlain(req: Request, env: OAuthEnv)
    ensures Connect(req, env).Err? ==> StatusFor(GetGoogleErrorDetails(Connect(req, env).error)) == 500
  {
    PlainErrorsAre500(MissingTokenMessage);
    PlainErrorsAre500(ConfigErrorMessage);
  }

  /** A Search Console call that throws replies 500 with the service's own message. */
  lemma SearchConsoleCallFailsWith500<T>(route: Route, call: ProviderCall, ctx: Context<T>)
    requires call.SearchConsoleCall?
    ensures var h := CallProvider(route, call, ctx);
      && h.calls == [call]
      && h.response.status != 401
      && (!CallReturned(ctx, call) ==>
            h.response == Response(500, Failure(FailureLabel(route), Some(Text(SearchConsoleServiceMessage(call.gsc))))))
  {
    PlainErrorsAre500(SearchConsoleServiceMessage(call.gsc));
  }
}
