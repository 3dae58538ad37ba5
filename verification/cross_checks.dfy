/**
 * Agreements between parts of the system that are written separately: the web
 * client's reading of report rows and property names against the server's
 * requests, the dashboard's date options against the server's date resolution,
 * and the brand route's checks against the shared schemas.
 */
module CrossChecks {
  import opened Wrappers
  import opened Calendar
  import Text
  import WebAnalytics
  import Ga4Service
  import AnalyticsRoutes
  import DashboardHelpers
  import Brands
  import Schemas

  /** The positions the dashboard reads from the totals row name the metrics the server asks for there. */
  lemma TotalsPositionsMatchReportMetrics()
    ensures Ga4Service.ReportMetrics[WebAnalytics.SessionsAt] == "sessions"
    ensures Ga4Service.ReportMetrics[WebAnalytics.UsersAt] == "activeUsers"
    ensures Ga4Service.ReportMetrics[WebAnalytics.PageViewsAt] == "screenPageViews"
    ensures Ga4Service.ReportMetrics[WebAnalytics.BounceRateAt] == "bounceRate"
    ensures Ga4Service.ReportMetrics[WebAnalytics.DurationAt] == "averageSessionDuration"
  {
  }

  /** The id the dashboard extracts from a property path is the id the server rebuilds that path from. */
  lemma PropertyIdSurvivesThePath(id: string)
    requires |id| >= 1 && Text.AllDigits(id)
    ensures DashboardHelpers.ExtractPropertyId(Some(Ga4Service.PropertyPath(id))) == Some(id)
  {
    DashboardHelpers.ExtractPropertyIdRoundTrip(id);
  }

  /**
   * Of the dashboard's date options, 'Last 2 years' starts with a value the Search Console
   * routes do not know, so it silently becomes the 30-day fallback; 'Since 2020' passes through.
   */
  lemma DashboardStartsOnSearchConsoleRoutes(today: CalendarDate, fallback: string)
    requires ValidDate(today)
    ensures DashboardHelpers.DateRangeOptions[4].0 == "730daysAgo"
    ensures AnalyticsRoutes.ResolveDateParam(Some(DashboardHelpers.DateRangeOptions[4].0), fallback, today) == fallback
    ensures AnalyticsRoutes.ResolveDateParam(Some(DashboardHelpers.DateRangeOptions[5].0), fallback, today) == "2020-01-01"
  {
    AnalyticsRoutes.Resolve730DaysAgo(fallback, today);
    AnalyticsRoutes.ResolveIsoPassThrough("2020-01-01", fallback, today);
  }

  /** For string fields, the brand route's check accepts exactly what `createBrandSchema` accepts. */
  lemma BrandCheckMatchesSchema(name: string, domain: string, createdBy: Option<string>, f: Schemas.Formats)
    ensures Brands.ValidateBrand(Brands.BrandBody(Some(name), Some(domain), createdBy)).Ok? <==>
      Schemas.Parse(Schemas.CreateBrandSchema,
                    Schemas.JObject(map["name" := Schemas.JString(name), "domain" := Schemas.JString(domain)]), f).Valid?
  {
    Schemas.CreateBrandAccepts(map["name" := Schemas.JString(name), "domain" := Schemas.JString(domain)], f);
  }

  /** The integration route accepts exactly the types the integration schema's enum lists. */
  lemma IntegrationTypeMatchesSchema(t: string, f: Schemas.Formats)
    ensures Brands.ValidateIntegrationType(Some(t)).Ok? <==>
      Schemas.Accepts(Schemas.Enum(Schemas.Ga4OrGsc), Schemas.JString(t), f)
  {
  }
}
