# Slingshot analytics dashboard — a Dafny model of its core logic

Slingshot is a marketing-analytics dashboard. A React web app shows Google Analytics 4
(GA4) and Google Search Console (GSC) figures for a brand. An Express server proxies
the user's Google OAuth tokens to the Google APIs. Supabase stores brands,
integrations and each user's Google tokens. Most of the code is glue. This model
covers the deterministic pieces that sit between the network calls:

- **`WebAnalytics`** (`web_analytics.dfy`): the web client's report normalisers and formatters.
  - `formatDashboardData` reads the GA4 totals row by position.
  - `formatTrafficTrends` maps rows one per point, and so does the Search Console timeseries mapping.
  - `formatSearchConsoleData` is a method whose summing loop is proved against a specification function.
  - `formatDuration`, `formatNumber` and `formatPercentageChange`.
- **`AnalyticsRoutes`** (`analytics_routes.dfy`): the server's `/api/analytics/google` router.
  - `toISODate` and `resolveDateParam`, which work on a proleptic Gregorian **`Calendar`** (`calendar.dfy`).
  - `extractTokens` and `getGoogleErrorDetails`.
  - The 401/500 status rule.
  - Every handler, as a function from the request and its oracles to the response and the provider calls it made.
- **`TokenRoutes`** (`token_routes.dfy`): the Supabase-JWT guard and the `user_tokens` store. The store is a class holding a map keyed by (user id, provider). Its POST, GET and DELETE methods are proved against specification functions.
- **`Ga4Service`** (`ga4_service.dfy`): the OAuth configuration guard, the flattening of account summaries into property records, and the Data API request bodies.
- **`Brands`** (`brands.dfy`): brand and integration validation, the conditional integration payload, and an append-only store of brands and integrations.
- **`RouteGuard`** (`route_guard.dfy`): `ProtectedRoute`'s chain of checks.
- **`DashboardHelpers`** (`dashboard_helpers.dfy`): `extractPropertyId`, the property selection, and the `start|end` date-range value.
- **`Schemas`** (`schemas.dfy`): the shared zod schemas as validators in "strip" mode. The uuid, datetime, date and url format checks are predicates passed in.
- **`SupabaseClientSlot`** (`supabase_client.dfy`): the lazily created database client.
- **`CrossChecks`** (`cross_checks.dfy`): agreements between parts written separately. The positions the client reads match the metrics the server requests. Property paths round-trip. The dashboard's date options meet the server's date resolution. The brand route agrees with the schemas.
- **`Text`**, **`Js`** and **`Wrappers`** hold the JavaScript behaviour the code relies on:
  - truthiness of `||`;
  - optional chaining;
  - `parseInt` and `parseFloat` over digit prefixes;
  - `Math.round`;
  - `String.replace` with a string pattern (first occurrence only);
  - `split` and `padStart`.

Network and SDK calls are parameters. They appear as oracles (functions from request to outcome) or as fault parameters of the store methods:

- the Google Admin, Data and Search Console APIs;
- `supabase.auth.getUser`;
- faults of Supabase queries;
- `decodeURIComponent`.

The effect of a successful Supabase query on the `user_tokens` table is not a parameter. It is the model's own reading of the SDK, stated in `TokenRoutes`. `supabase-js` sends the payload through `JSON.stringify`, which drops fields that are `undefined`. The `upsert` with `onConflict` merges duplicates, so a conflicting row gets the columns that were sent and keeps the others. A new row gets null for a column that was left out. `delete` removes the matched row.

The clock is a parameter too: today's date for `resolveDateParam`, and "now" in milliseconds for `is_expired`.

Behaviour of the code that a reader might not expect, which the model keeps:

- A request without a bearer token gets status 500, not 401. `extractTokens` throws a plain `Error` without a `code` (apps/server/src/routes/analytics/google.ts:77-79), and the status rule (google.ts:99) gives 401 only for a code of 401 (`AnalyticsRoutes.NoBearerNoProviderCall`, `AnalyticsRoutes.PlainErrorsAre500`).
- The Search Console routes never reply 401. Each Search Console service method replaces the API's error with a plain `Error` (apps/server/src/services/google/searchconsole.ts:14-16, 36-42, 59-65, 83-85, 103-105), so its details carry no code (`AnalyticsRoutes.SearchConsoleNever401`).
- The dashboard reads GA4 metric values from `values` arrays (apps/web/src/services/analytics.ts:199-203); the model reads the same field.
- GSC queries without a site URL get 400 before any token check (google.ts:201-206 precede :208).

## Model

| member | source | states |
|---|---|---|
| WebAnalytics.FormatDashboardData | apps/web/src/services/analytics.ts:168-218 | No response, missing rows or an empty row list give the all-zero record. Missing totals give the all-zero record even when rows exist. Every `*Change` field is 0. |
| WebAnalytics.DashboardReadsTotals | apps/web/src/services/analytics.ts:195-212 | With a first totals entry of digit strings, sessions, users and page views are its values at positions 0, 1 and 2, and a missing entry reads as 0. |
| WebAnalytics.CountAt | apps/web/src/services/analytics.ts:199-201 | `parseInt(values?.[i] \|\| '0')` is the value of the i-th digit string, or 0 past the end. |
| WebAnalytics.TrafficPoints | apps/web/src/services/analytics.ts:228-242 | One point per row, in row order, each the mapping of its own row. |
| WebAnalytics.FormatTrafficTrends | apps/web/src/services/analytics.ts:220-243 | `[]` without a response or rows; otherwise the row-by-row mapping; no point has an empty date. |
| WebAnalytics.TrafficDateDefault | apps/web/src/services/analytics.ts:229 | The date is 'Unknown' exactly when the first dimension is missing or empty (or is itself 'Unknown'). |
| WebAnalytics.SearchConsoleSummary | apps/web/src/services/analytics.ts:245-291 | The zero record on empty input. Otherwise clicks and impressions are the row sums, with missing values counted as 0. The definition takes CTR and position as the unweighted means, scaled and rounded; the ensures state the zero record, the two sums and the zero changes. |
| WebAnalytics.FormatSearchConsoleData | apps/web/src/services/analytics.ts:261-290 | The summing loop computes exactly the summary. |
| WebAnalytics.SumAppend | apps/web/src/services/analytics.ts:268-273 | A sum over concatenated rows is the sum of the parts. |
| WebAnalytics.SummaryIgnoresRowOrder | apps/web/src/services/analytics.ts:266-285 | Swapping two blocks of rows does not change the summary. |
| WebAnalytics.SumBounds | apps/web/src/services/analytics.ts:268-278 | If every row's value lies in [lo, hi], the sum lies in [n·lo, n·hi], so the mean lies in [lo, hi]. |
| WebAnalytics.SearchConsoleExample | apps/web/src/services/analytics.ts:268-289 | Two rows with 10 and 20 clicks give 30 clicks, 300 impressions, CTR 15 and position 4. |
| WebAnalytics.TimeseriesPoints | apps/web/src/services/analytics.ts:159-165 | One point per row, in order. |
| WebAnalytics.SearchConsoleTimeseries | apps/web/src/services/analytics.ts:158-165 | `[]` without data or rows; otherwise the row-by-row mapping. |
| WebAnalytics.TimeseriesDate | apps/web/src/services/analytics.ts:160 | The date is `keys[0]`, else `dimensions[0]`, else 'Unknown'. |
| WebAnalytics.JsRem60 | apps/web/src/services/analytics.ts:295 | JavaScript's `%` by 60: equal to the mathematical remainder for s ≥ 0, and always strictly between -60 and 60. |
| WebAnalytics.DashboardDurationIsWhole | apps/web/src/pages/Dashboard.tsx:305 | The dashboard's average session duration, which it formats, is NaN or a whole number, so `formatDuration` always applies. |
| WebAnalytics.NonNumericDurationShowsNaN | apps/web/src/services/analytics.ts:293-297 | A non-numeric duration total reads as NaN, and the dashboard shows "NaNm NaNs", which is not a duration's text. |
| WebAnalytics.FormatDurationRoundTrip | apps/web/src/services/analytics.ts:293-297 | For s ≥ 0 the text is `<m>m <r>s` with 60·m + r = s and r < 60, and parsing the text gives back s. |
| WebAnalytics.FormatDurationExample | apps/web/src/services/analytics.ts:293-297 | 125 seconds format as "2m 5s". |
| WebAnalytics.FormatDurationNegative | apps/web/src/services/analytics.ts:293-297 | -61 seconds format as "-2m -1s": floor for minutes, truncating remainder for seconds. |
| WebAnalytics.FormatNumber | apps/web/src/services/analytics.ts:299-307 | Suffix 'M' iff n ≥ 1,000,000. Suffix 'K' iff 1,000 ≤ n < 1,000,000. No suffix otherwise, NaN included. The scaled value times the unit is n. |
| WebAnalytics.FormatNumberExamples | apps/web/src/services/analytics.ts:299-307 | 1,500 gives 1.5 K, and 2,500,000 gives 2.5 M. |
| WebAnalytics.FormatPercentageChange | apps/web/src/services/analytics.ts:309-312 | The sign is '+' exactly when change ≥ 0, and empty otherwise, NaN included. |
| Js.Round | apps/web/src/services/analytics.ts:211-212 | `Math.round` gives an integer within one half of its argument, and keeps NaN. |
| Js.ParseIntOfDigits | apps/web/src/services/analytics.ts:199-201 | `parseInt` of a digit string is its decimal value. |
| Js.ParseFloatOfDigits | apps/web/src/services/analytics.ts:202-203 | `parseFloat` of a digit string is its decimal value. |
| Calendar.DaysAgo | apps/server/src/routes/analytics/google.ts:43-62 | `setDate(getDate() - n)` stays a valid calendar date, at most n years earlier. |
| Calendar.DaysAheadOfDaysAgo | apps/server/src/routes/analytics/google.ts:43-62 | Going n days back and n days forward returns to the same date. |
| AnalyticsRoutes.ToISODateRoundTrip | apps/server/src/routes/analytics/google.ts:31-36 | For four-digit years the text has the `YYYY-MM-DD` shape, with zero-padded month and day, and reads back as the same date. |
| AnalyticsRoutes.ResolveDateParam | apps/server/src/routes/analytics/google.ts:38-70 | A missing or empty value gives the fallback. A value that is neither a keyword nor `YYYY-MM-DD`-shaped gives the fallback. |
| AnalyticsRoutes.KeywordsAreNotIsoShaped | apps/server/src/routes/analytics/google.ts:41-67 | No keyword is itself a `YYYY-MM-DD` value. |
| AnalyticsRoutes.ResolveKeyword | apps/server/src/routes/analytics/google.ts:41-65 | Each of today, 7, 30, 90 and 365 days ago resolves to a `YYYY-MM-DD` date exactly that many days before today. |
| AnalyticsRoutes.ResolveIsoPassThrough | apps/server/src/routes/analytics/google.ts:67 | A `YYYY-MM-DD`-shaped value is returned unchanged. |
| AnalyticsRoutes.ResolveImpossibleDate | apps/server/src/routes/analytics/google.ts:67 | "2024-13-45" passes through: there is no calendar check. |
| AnalyticsRoutes.Resolve730DaysAgo | apps/server/src/routes/analytics/google.ts:41-69 | '730daysAgo' resolves to the fallback. |
| AnalyticsRoutes.ResolveIsAbsoluteOrFallback | apps/server/src/routes/analytics/google.ts:38-70 | The result is the fallback or an absolute date, and resolving an absolute result again returns it unchanged. |
| AnalyticsRoutes.InheritedKeyFinding | apps/server/src/routes/analytics/google.ts:41-65 | As written, 'toString' resolves to "[object Object]" and '\_\_proto\_\_' throws. Corrected, both resolve to the fallback. |
| AnalyticsRoutes.AsWrittenAgreesElsewhere | apps/server/src/routes/analytics/google.ts:38-70 | Outside the inherited member names, the code as written and the corrected resolution agree. |
| AnalyticsRoutes.ExtractTokens | apps/server/src/routes/analytics/google.ts:73-82 | It throws 'Access token is required' exactly when the header is missing or nothing remains after removing the first 'Bearer '. Otherwise it returns that remainder and the refresh token. |
| AnalyticsRoutes.ExtractBearer | apps/server/src/routes/analytics/google.ts:74-79 | "Bearer t" yields t, and "Bearer " alone is rejected. |
| AnalyticsRoutes.ExtractBearerInside | apps/server/src/routes/analytics/google.ts:74 | The prefix is removed wherever it first occurs: "x Bearer y" yields "x y". |
| AnalyticsRoutes.GetGoogleErrorDetails | apps/server/src/routes/analytics/google.ts:17-28 | The provider's embedded error if truthy, else the error message if truthy, else 'Unknown error'. |
| AnalyticsRoutes.StatusFor | apps/server/src/routes/analytics/google.ts:99 | 401 exactly when the details are an object with code 401; otherwise 500. |
| AnalyticsRoutes.PlainErrorsAre500 | apps/server/src/routes/analytics/google.ts:77-79 | An error the server throws itself, such as a missing token or missing configuration, maps to 500. |
| AnalyticsRoutes.Handle | apps/server/src/routes/analytics/google.ts:85-316 | Every handler makes at most one provider call and replies 200, 400, 401 or 500. |
| AnalyticsRoutes.SuccessIffProviderReturned | apps/server/src/routes/analytics/google.ts:85-316 | A success envelope, always with status 200, is sent exactly when one provider call was made and it returned. |
| AnalyticsRoutes.NoBearerNoProviderCall | apps/server/src/routes/analytics/google.ts:73-82 | Without an Authorization header no provider is called, and the reply is 400 or 500, never 401. |
| AnalyticsRoutes.MissingSiteIs400 | apps/server/src/routes/analytics/google.ts:194-306 | With the corrected date resolution, a GSC query without a site URL gets 400 'Site URL is required', before the token check and without a call. In the code as written this holds when neither date parameter names an inherited member (see Findings). |
| AnalyticsRoutes.Status401ComesFromProvider | apps/server/src/routes/analytics/google.ts:96-100 | A 401 reply follows a provider call whose error carries code 401. |
| AnalyticsRoutes.ServiceError | apps/server/src/services/google/searchconsole.ts:10-107 | A Search Console service call that fails throws a plain `Error` with that method's own message. A GA4 call lets the API's error through. |
| AnalyticsRoutes.SearchConsoleNever401 | apps/server/src/routes/analytics/google.ts:175-316 | No Search Console route replies 401. A failed Search Console call replies 500 with the route's label and the service's message as details. |
| AnalyticsRoutes.SearchConsoleCallFailsWith500 | apps/server/src/services/google/searchconsole.ts:14-16 | One Search Console call that throws gives 500 with the service's message. |
| AnalyticsRoutes.ConnectErrorsArePlain | apps/server/src/routes/analytics/google.ts:77-79 | Errors from token extraction or the service factory map to 500. |
| Ga4Service.CreateAnalyticsService | apps/server/src/services/google/analytics.ts:131-148 | It throws the configuration error iff one of the three OAuth settings is missing or empty. Otherwise the client carries the settings and both tokens. |
| Ga4Service.PropertiesOf | apps/server/src/services/google/analytics.ts:34-39 | One record per property summary, in order, as {property, displayName, summary name}. A missing list counts as empty. |
| Ga4Service.FlattenCount | apps/server/src/services/google/analytics.ts:32-40 | The number of records is the sum of the property-summary counts. |
| Ga4Service.FlattenAppend | apps/server/src/services/google/analytics.ts:33-40 | Flattening preserves summary order: flattening concatenated summaries gives the concatenated results. |
| Ga4Service.FlattenOrigin | apps/server/src/services/google/analytics.ts:33-40 | Every record comes from one property summary of one account summary, with that account as parent. |
| Ga4Service.AdminRequestFor | apps/server/src/services/google/analytics.ts:24-31 | With an account id, the filter is 'parent:accounts/' + id. Otherwise account summaries are listed with page size 2000. |
| Ga4Service.GetProperties | apps/server/src/services/google/analytics.ts:22-46 | Admin errors are rethrown. With an account id, the property list is returned, empty if missing. Otherwise the flattened summaries are returned. |
| Ga4Service.RequestsNameTheProperty | apps/server/src/services/google/analytics.ts:48-119 | Every report request names 'properties/' + id and carries the caller's date range. |
| Ga4Service.TopPagesShape | apps/server/src/services/google/analytics.ts:100-119 | Top pages are ordered by screenPageViews, descending, limited to 20 rows. |
| TokenRoutes.BearerTokenIsRest | apps/server/src/routes/auth/tokens.ts:20-24 | For a header starting with 'Bearer ', the token is the rest of the header. |
| TokenRoutes.ValidateSupabaseAuth | apps/server/src/routes/auth/tokens.ts:17-40 | 401 'Missing or invalid authorization header' when the header is missing or lacks 'Bearer ', whatever the verifier says. For a 'Bearer ' header: 500 'Authentication validation failed' exactly when verification throws, 401 'Invalid or expired token' on a verifier error or no user, and otherwise the verified user. |
| TokenRoutes.VerifiedBearerAuthenticates | apps/server/src/routes/auth/tokens.ts:19-35 | 'Bearer ' + a token that verifies authenticates exactly that user. |
| TokenRoutes.StoredExpiry | apps/server/src/routes/auth/tokens.ts:66 | An absent or zero expiry stores null. A time value outside ±8.64e15 ms makes the conversion throw. Any other value is kept. |
| TokenRoutes.IsExpired | apps/server/src/routes/auth/tokens.ts:117 | Null without an expiry. True iff the expiry is strictly before now. |
| TokenRoutes.PostStep | apps/server/src/routes/auth/tokens.ts:43-88 | 400 iff there is no access token. 200 iff the expiry converts and the database reports no error; the user's (user, 'google') row then holds the new access token and expiry, and no other row changes. Its refresh token is the sent one, null when null was sent, and the stored one (null for a new row) when the field was left out. Every other outcome changes nothing. |
| TokenRoutes.UpsertedRefreshToken | apps/server/src/routes/auth/tokens.ts:59-69 | The refresh token after the merge upsert: the sent string, null for null, and for a left-out field the row's old value or null. |
| TokenRoutes.GetReply | apps/server/src/routes/auth/tokens.ts:91-138 | 500 iff the database reports an error other than PGRST116. 404 when there is no row or PGRST116 is reported. Otherwise the stored tokens with `is_expired`, the user id and email. |
| TokenRoutes.DeleteStep | apps/server/src/routes/auth/tokens.ts:141-173 | 200 iff no database error; the user's row is then gone and no other row changes. Otherwise 500 and nothing changes. |
| TokenRoutes.TokenTable.Post | apps/server/src/routes/auth/tokens.ts:43-88 | The guard and then the upsert: new table and reply as the specification functions give them. |
| TokenRoutes.TokenTable.Get | apps/server/src/routes/auth/tokens.ts:91-138 | The guard and then the lookup: reply as the specification functions give it. |
| TokenRoutes.TokenTable.Delete | apps/server/src/routes/auth/tokens.ts:141-173 | The guard and then the delete: new table and reply as the specification functions give them. |
| TokenRoutes.NoBearerChangesNothing | apps/server/src/routes/auth/tokens.ts:19-22 | Without a 'Bearer ' header, all three routes reply 401 and leave the table unchanged. |
| TokenRoutes.PostThenGet | apps/server/src/routes/auth/tokens.ts:59-69 | After a successful POST, a GET with the same header returns the sent access token and expiry. The refresh token is the sent one, null when null was sent, or the one stored before when the field was left out. |
| TokenRoutes.OmittedRefreshTokenKept | apps/web/src/pages/AuthCallback.tsx:41-49 | The sign-in callback can leave out the provider's refresh token. A POST without it keeps the refresh token an earlier POST stored. |
| TokenRoutes.DeleteThenGet | apps/server/src/routes/auth/tokens.ts:150-154 | After a successful DELETE, a GET with the same header gets 404. |
| TokenRoutes.LastPostWins | apps/server/src/routes/auth/tokens.ts:59-69 | The upsert keeps one row per user. After two successful POSTs the user's row has the access token and expiry that the second alone would leave, and other rows are as after the first. The refresh token is the second's, or the first's outcome when the second left it out. |
| TokenRoutes.FullPostReplaces | apps/server/src/routes/auth/tokens.ts:59-69 | When the second POST sends a refresh token or null, the table is what the second alone would leave. |
| TokenRoutes.OtherUsersUntouched | apps/server/src/routes/auth/tokens.ts:59-69 | POST and DELETE leave every other user's and provider's row as it was. |
| TokenRoutes.StoredExpiryEdges | apps/server/src/routes/auth/tokens.ts:66 | 0 stores null. 8.64e15 is kept. One millisecond more is rejected. |
| Brands.ValidateBrand | apps/server/src/routes/brands.ts:18-25 | 400 'name and domain are required' iff name or domain is missing or empty. Otherwise the row, with `created_by` null when absent. |
| Brands.ValidateIntegrationType | apps/server/src/routes/brands.ts:66-70 | Accepts exactly 'GA4' and 'GSC'. Anything else gets 400. |
| Brands.BuildPayload | apps/server/src/routes/brands.ts:72-79 | The payload has the path's brand id, the type and status 'connected'. property_id, refresh_token and credentials are present iff truthy. |
| Brands.FaultReply | apps/server/src/routes/brands.ts:29-37 | A reported database error gives 500 with its message as details. An exception gives 500 'Internal server error'. |
| Brands.IntegrationsOf | apps/server/src/routes/brands.ts:45-48 | Every listed row is one of the brand's rows, and every row of the brand is listed; the list is no longer than the table. |
| Brands.IntegrationsOfAppend | apps/server/src/routes/brands.ts:81-85 | An insert appends to its own brand's list and changes no other brand's list. |
| Brands.RepeatedSavesAccumulate | apps/server/src/routes/brands.ts:62-85 | Saving the same integration twice leaves two rows: it is an insert, not an update. |
| Brands.BrandStore.CreateBrand | apps/server/src/routes/brands.ts:16-39 | Validation, then the insert: the brands table grows by the validated row only on success. |
| Brands.BrandStore.ListIntegrations | apps/server/src/routes/brands.ts:42-60 | The brand's integrations, or the fault reply. |
| Brands.BrandStore.SaveIntegration | apps/server/src/routes/brands.ts:63-97 | Validation, then the insert: on success one new row with the built payload is appended. |
| RouteGuard.ProtectedRoute | apps/web/src/components/ProtectedRoute.tsx:9-40 | Loading shows the loading view. No user redirects to /login, carrying the location. The outlet renders iff not loading, a user is present and every enabled requirement holds. /login only without a user. An unconfirmed user goes to /verify-email exactly when confirmation is required, under any Google flag. A user who passes that check goes to /setup when Google access is required and missing. |
| RouteGuard.DefaultRequiresConfirmation | apps/web/src/components/ProtectedRoute.tsx:11-31 | With default flags, an unconfirmed user goes to /verify-email. |
| RouteGuard.DefaultIgnoresGoogle | apps/web/src/components/ProtectedRoute.tsx:10-39 | With default flags, a confirmed user without Google access sees the outlet. |
| RouteGuard.EmailCheckedBeforeGoogle | apps/web/src/components/ProtectedRoute.tsx:29-37 | An unconfirmed user without Google access goes to /verify-email, not /setup. |
| RouteGuard.SetupRedirectMeansNoGoogle | apps/web/src/components/ProtectedRoute.tsx:33-37 | /setup is reached only when Google is required and missing, after the other checks pass. |
| DashboardHelpers.FirstMatch | apps/web/src/pages/Dashboard.tsx:100 | The leftmost position where 'properties/' is followed by a digit, or none. |
| DashboardHelpers.ExtractPropertyId | apps/web/src/pages/Dashboard.tsx:95-103 | Null for a missing or empty name. Otherwise an id exists iff the pattern matches somewhere, and it is the maximal non-empty digit run after the leftmost match. |
| DashboardHelpers.ExtractPropertyIdRoundTrip | apps/web/src/pages/Dashboard.tsx:99-100 | 'properties/' + a non-empty digit string gives back that string. |
| DashboardHelpers.NoDigitsNoId | apps/web/src/pages/Dashboard.tsx:100 | 'properties/abc' gives null. |
| DashboardHelpers.LeftmostMatchWithDigits | apps/web/src/pages/Dashboard.tsx:99-100 | The pattern is unanchored and skips a 'properties/' without digits: 'properties/x/properties/5' gives '5'. |
| DashboardHelpers.OnlyMatchOfExample | apps/web/src/pages/Dashboard.tsx:100 | In that name the pattern matches only at position 13. |
| DashboardHelpers.SelectedProperty | apps/web/src/pages/Dashboard.tsx:216 | The empty option selects nothing. Any other value selects itself. |
| DashboardHelpers.SelectingAPropertyGivesItsId | apps/web/src/pages/Dashboard.tsx:216-238 | Choosing a property's option selects exactly its extracted id, or nothing. |
| DashboardHelpers.DecodeDateRange | apps/web/src/pages/Dashboard.tsx:248-250 | The start never contains '\|'. Without a '\|' the end is undefined. |
| DashboardHelpers.DateRangeRoundTrip | apps/web/src/pages/Dashboard.tsx:246-250 | Splitting start + '\|' + end recovers both when neither contains '\|'. |
| DashboardHelpers.DateRangeEndIsCut | apps/web/src/pages/Dashboard.tsx:248-250 | An end containing '\|' is cut at its first '\|': the decoded end is only the part before it. |
| DashboardHelpers.OptionsRoundTrip | apps/web/src/pages/Dashboard.tsx:252-257 | All six offered options decode to the range they encode. |
| Schemas.CheckFields | packages/shared/dist/types.js:1-67 | No issues iff every field passes. Output keys come from the schema only. When the schema's keys are distinct, each field's output is its input, its default, or absent. |
| Schemas.Parse | packages/shared/dist/types.js:1-67 | Valid iff the input is an object whose every field passes. The output keeps only schema keys and fills defaults. An invalid parse has at least one issue. |
| Schemas.UnknownKeysIgnored | packages/shared/dist/types.d.ts:9 | Adding a key the schema does not name changes neither validity nor output. |
| Schemas.OptionalMayBeAbsent | packages/shared/dist/types.js:20-49 | Dropping an optional key keeps a valid input valid. |
| Schemas.NamedFieldsAreOptional | packages/shared/dist/types.js:20-49 | property_id, last_sync, title and metadata are optional. |
| Schemas.CreateBrandAccepts | packages/shared/dist/types.js:11-14 | Accepted iff name and domain are strings of length ≥ 1. |
| Schemas.IntegrationTypeIsGa4OrGsc | packages/shared/dist/types.js:19 | A parsed integration keeps its integration_type, which is 'GA4' or 'GSC'. |
| Schemas.StatusDefaultsToPending | packages/shared/dist/types.js:21 | A parsed integration always has a status, 'pending' when the input has none. |
| Schemas.DefinedFieldKept | packages/shared/dist/types.js:1-67 | A field that yields a value, its input's or its default, keeps it in the output unless an earlier field has the same key. |
| Schemas.ParsedFieldKept | packages/shared/dist/types.js:1-67 | In a valid parse, a field passes its check and, when no earlier field shares its key, keeps the value it yields. |
| Schemas.SnapshotSource | packages/shared/dist/types.js:29 | source is 'GA4' or 'GSC'. |
| Schemas.MessageRole | packages/shared/dist/types.js:47 | role is 'user' or 'assistant'. |
| Schemas.DashboardDefault | packages/shared/dist/types.js:58 | A missing is_default reads false. |
| Schemas.ApiResponseNeedsBooleanSuccess | packages/shared/dist/types.js:62-67 | A valid API response has a boolean success. |
| Schemas.ApiResponseSuccessSuffices | packages/shared/dist/types.js:62-67 | A boolean success alone makes a valid API response: every other field is optional. |
| SupabaseClientSlot.CreateStep | packages/database/src/client.ts:6-11 | The first call builds a client from its arguments. Later calls return the stored client and ignore theirs. The slot always ends holding the returned client. |
| SupabaseClientSlot.GetClient | packages/database/src/client.ts:13-18 | Before creation it throws 'Supabase client not initialized. Call createSupabaseClient first.'. Afterwards it returns the stored client. |
| SupabaseClientSlot.FirstCreateWins | packages/database/src/client.ts:6-11 | A second creation changes nothing and returns the first client. |
| SupabaseClientSlot.GetAfterCreate | packages/database/src/client.ts:7-17 | After creation, get returns exactly the client creation returned. |
| SupabaseClientSlot.ClientSlot.CreateSupabaseClient | packages/database/src/client.ts:6-11 | The method updates the slot as the specification function does. |
| SupabaseClientSlot.ClientSlot.GetSupabaseClient | packages/database/src/client.ts:13-18 | The method returns what the specification function gives. |
| CrossChecks.TotalsPositionsMatchReportMetrics | apps/server/src/services/google/analytics.ts:77-83 | Positions 0 to 4 that the dashboard reads (apps/web/src/services/analytics.ts:197-203) name sessions, activeUsers, screenPageViews, bounceRate and averageSessionDuration in the server's request. |
| CrossChecks.PropertyIdSurvivesThePath | apps/web/src/pages/Dashboard.tsx:99-100 | The id extracted from the server's 'properties/' + id path is id. |
| CrossChecks.DashboardStartsOnSearchConsoleRoutes | apps/web/src/pages/Dashboard.tsx:256-257 | On the GSC routes, the '730daysAgo' option becomes the fallback, and '2020-01-01' passes through. |
| CrossChecks.BrandCheckMatchesSchema | apps/server/src/routes/brands.ts:18-21 | For string fields, the route's check accepts exactly what createBrandSchema accepts. |
| CrossChecks.IntegrationTypeMatchesSchema | apps/server/src/routes/brands.ts:68-70 | The route accepts exactly the schema's integration_type enum. |

## Left out

- Network and SDK calls are oracles or fault parameters, as listed above. This covers `fetch` in the web client, googleapis, Supabase queries and `auth.getUser`. The Search Console factory has the same configuration guard as the GA4 one, so both use `Ga4Service.CreateAnalyticsService`.
- AnalyticsRoutes.Handle: the handlers use the corrected date resolution `AnalyticsRoutes.ResolveDateParam`, not the code as written. With `startDate=__proto__` the code replies 500 before the site check, and with `startDate=toString` it sends "[object Object]" as a date. The Findings row and `AnalyticsRoutes.InheritedKeyFinding` record this.
- The Search Console service's logging of the API error is not modelled. Its request bodies (dimensions, row limits) are not modelled either.
- Concurrency is not modelled: `Promise.all` in the dashboard, and interleaved requests to the server.
- The clock and time zone are not modelled. Today's date and "now" are parameters, and the server's local calendar is taken to be the proleptic Gregorian one.
- Request-id logging middleware and console output are left out: they use random ids and have no effect on replies.
- Server bootstrap is left out: helmet, CORS, rate limiting, port retry and env loading. The OAuth settings are a parameter.
- The OAuth routes in apps/server/src/routes/auth/google.ts are not part of this model.
- The stale build copies under `dist/` (other than the shared schemas) are not part of this model.
- React rendering is not part of this model. Only the two Dashboard helpers and the route guard's decision are.
- Query and body values are modelled as strings. Express can also deliver arrays or objects.
- `credentials` in the integration body is modelled as a string. An object would always be truthy.
- `expires_at` is modelled as a number of milliseconds. A date string is not modelled.
- Ids and timestamps that the database assigns on insert are not modelled. Row order in query results is taken to be insertion order.
- The handlers' `!user` checks after the guard (apps/server/src/routes/auth/tokens.ts:48, 95, 145) are left out: the guard always sets the user first.
- WebAnalytics.FormatDuration: only NaN and whole numbers are modelled. A fractional number of seconds would print a fractional remainder, but the dashboard passes only `Math.round`'s result (`WebAnalytics.DashboardDurationIsWhole`).
- WebAnalytics.FormatNumber: the digits that `toFixed(1)` and `toLocaleString` render are not modelled. The contract states the suffix and the scaled value.
- WebAnalytics.FormatPercentageChange: the digits that `toFixed(1)` renders are not modelled. The contract states the sign and the value.
- WebAnalytics.SearchConsoleSummary: numbers are exact reals, not IEEE doubles. Rounding is `Math.round` on the exact value, so floating-point error is not modelled.
- Js.ParseInt: the `0x` hexadecimal prefix that `parseInt` honours without a radix is not modelled. Decimal digit prefixes are.
- Js.ParseFloat: exponents and "Infinity" are not modelled. Decimal digits with an optional fraction are.
- AnalyticsRoutes.ToISODateRoundTrip: stated for four-digit years only. `toISODate` does not pad other years, so their text is not `YYYY-MM-DD`-shaped.
- AnalyticsRoutes.ResolveKeyword: stated for current years 1365 to 9999, so that a year stays four-digit after going back 365 days.
- TokenRoutes.StoredExpiry: the ISO rendering of the stored timestamp is not modelled. The stored instant is kept in milliseconds, and `is_expired` compares instants.

## Findings

| source | as written | input that shows it | evidently intended | confidence | as-written member | corrected member |
|---|---|---|---|---|---|---|
| apps/server/src/routes/analytics/google.ts:41-65 | The keyword lookup `mapping[value]` on an object literal also finds members inherited from `Object.prototype`, and calls them. | `startDate=toString` resolves to "[object Object]", which is sent to Search Console as a date. `startDate=__proto__` throws a TypeError and gets a 500 reply. | Only the five keywords are looked up. Any other value that is not `YYYY-MM-DD`-shaped resolves to the fallback. | not executed | AnalyticsRoutes.ResolveDateParamAsWritten (shown by AnalyticsRoutes.InheritedKeyFinding) | AnalyticsRoutes.ResolveDateParam |
