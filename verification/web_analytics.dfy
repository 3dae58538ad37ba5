/**
 * The report normalisers and presentation formatters of the web client's
 * analytics service: GA4 totals and time series, the Search Console
 * aggregate and time series, and the duration, number and percentage helpers.
 * Raw report fields that may be missing are `Option`s; a missing value and a
 * falsy one are read the way JavaScript's `||` reads them.
 */
module WebAnalytics {
  import opened Wrappers
  import opened Text
  import opened Js

  // ---------------------------------------------------------------- GA4

  /**
   * Positions of the metrics in a totals row or a row's metric values; they follow
   * the order in which the server requests the metrics of a GA4 report.
   */
  const SessionsAt: nat := 0
  const UsersAt: nat := 1
  const PageViewsAt: nat := 2
  const BounceRateAt: nat := 3
  const DurationAt: nat := 4

  /** `{ values?: string[] }`: one totals row, or one entry of a row's `metrics`. */
  datatype MetricValues = MetricValues(values: Option<seq<string>>)

  datatype Ga4Row = Ga4Row(dimensions: Option<seq<string>>, metrics: Option<seq<MetricValues>>)

  /** The `data` of a GA4 report response as the client reads it. */
  datatype Ga4Report = Ga4Report(rows: Option<seq<Ga4Row>>, totals: Option<seq<MetricValues>>)

  datatype AnalyticsData = AnalyticsData(
    pageViews: Num, users: Num, sessions: Num, bounceRate: Num, averageSessionDuration: Num,
    pageViewsChange: Num, usersChange: Num, sessionsChange: Num, bounceRateChange: Num)

  const ZeroAnalytics := AnalyticsData(Zero, Zero, Zero, Zero, Zero, Zero, Zero, Zero, Zero)

  /** `values?.[i] || '0'`. */
  function ValueOrZeroText(values: Option<seq<string>>, i: nat): string {
    OrElse(At(values, i), "0")
  }

  predicate HasRows(raw: Option<Ga4Report>) {
    raw.Some? && raw.value.rows.Some? && |raw.value.rows.value| > 0
  }

  /** `formatDashboardData`: the headline GA4 metrics, read positionally from the first totals row. */
  function FormatDashboardData(raw: Option<Ga4Report>): (r: AnalyticsData)
    ensures !HasRows(raw) ==> r == ZeroAnalytics
    ensures r.pageViewsChange == r.usersChange == r.sessionsChange == r.bounceRateChange == Zero
    ensures raw.Some? && (raw.value.totals.None? || raw.value.totals.value == []) ==> r == ZeroAnalytics
  {
    if !HasRows(raw) then ZeroAnalytics
    else
      var report := raw.value;
      if report.totals.Some? && |report.totals.value| > 0 then
        var values := report.totals.value[0].values;
        AnalyticsData(
          pageViews := ParseInt(ValueOrZeroText(values, PageViewsAt)),
          users := ParseInt(ValueOrZeroText(values, UsersAt)),
          sessions := ParseInt(ValueOrZeroText(values, SessionsAt)),
          bounceRate := Round(Times(ParseFloat(ValueOrZeroText(values, BounceRateAt)), 100.0)),
          averageSessionDuration := Round(ParseFloat(ValueOrZeroText(values, DurationAt))),
          pageViewsChange := Zero, usersChange := Zero, sessionsChange := Zero, bounceRateChange := Zero)
      else
        AnalyticsData(Zero, Zero, Zero, Round(Times(Zero, 100.0)), Round(Zero), Zero, Zero, Zero, Zero)
  }

  /** The count a totals entry contributes: its value when it is a digit string, 0 when it is missing or empty. */
  function CountOf(values: seq<string>, i: nat): real
    requires forall j | 0 <= j < |values| :: AllDigits(values[j])
  {
    if i < |values| && values[i] != "" then DigitsValue(values[i]) as real else 0.0
  }

  /** A totals entry that is a digit string parses to its value; a missing or empty one reads as "0". */
  lemma CountAt(values: seq<string>, i: nat)
    requires forall j | 0 <= j < |values| :: AllDigits(values[j])
    ensures ParseInt(ValueOrZeroText(Some(values), i)) == Val(CountOf(values, i))
  {
    var text := ValueOrZeroText(Some(values), i);
    if i < |values| && values[i] != "" {
      assert text == values[i];
      ParseIntOfDigits(text);
    } else {
      assert text == "0";
      assert DigitsValue(text) == 0;
      ParseIntOfDigits(text);
    }
  }

  /**
   * With rows and a first totals row of digit strings, sessions, users and page views
   * are entries 0, 1 and 2 of that totals row, and a missing or empty entry reads as 0.
   */
  lemma DashboardReadsTotals(rows: seq<Ga4Row>, values: seq<string>, more: seq<MetricValues>)
    requires |rows| > 0
    requires forall j | 0 <= j < |values| :: AllDigits(values[j])
    ensures var r := FormatDashboardData(Some(Ga4Report(Some(rows), Some([MetricValues(Some(values))] + more))));
      && r.sessions == Val(CountOf(values, 0))
      && r.users == Val(CountOf(values, 1))
      && r.pageViews == Val(CountOf(values, 2))
  {
    var raw := Some(Ga4Report(Some(rows), Some([MetricValues(Some(values))] + more)));
    assert HasRows(raw);
    assert raw.value.totals.value[0].values == Some(values);
    var r := FormatDashboardData(raw);
    assert r.sessions == ParseInt(ValueOrZeroText(Some(values), SessionsAt));
    assert r.users == ParseInt(ValueOrZeroText(Some(values), UsersAt));
    assert r.pageViews == ParseInt(ValueOrZeroText(Some(values), PageViewsAt));
    CountAt(values, SessionsAt);
    CountAt(values, UsersAt);
    CountAt(values, PageViewsAt);
  }

  datatype TrafficData = TrafficData(date: string, pageViews: Num, users: Num, sessions: Num)

  /** One row of `formatTrafficTrends`: date from the first dimension, counts from the first metric entry. */
  function TrafficPoint(row: Ga4Row): TrafficData {
    var values := match At(row.metrics, 0) case Some(m) => m.values case None => None;
    TrafficData(
      date := OrElse(At(row.dimensions, 0), "Unknown"),
      pageViews := ParseInt(ValueOrZeroText(values, PageViewsAt)),
      users := ParseInt(ValueOrZeroText(values, UsersAt)),
      sessions := ParseInt(ValueOrZeroText(values, SessionsAt)))
  }

  function TrafficPoints(rows: seq<Ga4Row>): (r: seq<TrafficData>)
    ensures |r| == |rows|
    ensures forall i | 0 <= i < |rows| :: r[i] == TrafficPoint(rows[i])
  {
    if rows == [] then [] else [TrafficPoint(rows[0])] + TrafficPoints(rows[1..])
  }

  /** `formatTrafficTrends`: one point per row, in row order; no rows at all gives no points. */
  function FormatTrafficTrends(raw: Option<Ga4Report>): (r: seq<TrafficData>)
    ensures raw.None? || raw.value.rows.None? ==> r == []
    ensures raw.Some? && raw.value.rows.Some? ==>
      |r| == |raw.value.rows.value| &&
      forall i | 0 <= i < |r| :: r[i] == TrafficPoint(raw.value.rows.value[i])
    ensures forall i | 0 <= i < |r| :: r[i].date != ""
  {
    if raw.None? || raw.value.rows.None? then [] else TrafficPoints(raw.value.rows.value)
  }

  /** A row without a usable first dimension is dated 'Unknown'. */
  lemma TrafficDateDefault(row: Ga4Row)
    ensures TrafficPoint(row).date == "Unknown" <==> !Truthy(At(row.dimensions, 0)) || row.dimensions.value[0] == "Unknown"
  {
  }

  // ---------------------------------------------------------------- Search Console

  datatype GscMetricValues = GscMetricValues(values: Option<seq<real>>)

  /** One Search Console row as the client reads it. */
  datatype GscRow = GscRow(
    keys: Option<seq<string>>, dimensions: Option<seq<string>>,
    clicks: Option<real>, impressions: Option<real>, ctr: Option<real>, position: Option<real>,
    metrics: Option<seq<GscMetricValues>>)

  datatype GscReport = GscReport(rows: Option<seq<GscRow>>)

  datatype SearchConsoleData = SearchConsoleData(
    clicks: real, impressions: real, ctr: real, position: real,
    clicksChange: real, impressionsChange: real, ctrChange: real, positionChange: real)

  const ZeroSearchConsole := SearchConsoleData(0.0, 0.0, 0.0, 0.0, 0.0, 0.0, 0.0, 0.0)

  datatype GscMetric = Clicks | Impressions | Ctr | Position

  /** `row.<metric> || 0`. */
  function MetricOf(row: GscRow, m: GscMetric): real {
    var o := match m
      case Clicks => row.clicks
      case Impressions => row.impressions
      case Ctr => row.ctr
      case Position => row.position;
    NumOrElse(o, 0.0)
  }

  /** The sum of one metric over the rows, a missing value counting as 0. */
  function Sum(rows: seq<GscRow>, m: GscMetric): real
    decreases |rows|
  {
    if rows == [] then 0.0 else Sum(rows[..|rows| - 1], m) + MetricOf(rows[|rows| - 1], m)
  }

  /** Sums split over a concatenation. */
  lemma {:induction false} SumAppend(a: seq<GscRow>, b: seq<GscRow>, m: GscMetric)
    ensures Sum(a + b, m) == Sum(a, m) + Sum(b, m)
    decreases |b|
  {
    if b == [] {
      assert a + b == a;
    } else {
      assert (a + b)[..|a + b| - 1] == a + b[..|b| - 1];
      SumAppend(a, b[..|b| - 1], m);
    }
  }

  /** `Math.round(x)` on a real. */
  function RoundReal(x: real): real {
    (x + 0.5).Floor as real
  }

  predicate HasGscRows(raw: Option<GscReport>) {
    raw.Some? && raw.value.rows.Some? && |raw.value.rows.value| > 0
  }

  /**
   * What `formatSearchConsoleData` computes: clicks and impressions summed over the rows,
   * CTR and position the unweighted means over the rows, CTR scaled to a percentage with
   * two decimals and position rounded to one decimal; every change field is 0.
   */
  function SearchConsoleSummary(raw: Option<GscReport>): (r: SearchConsoleData)
    ensures !HasGscRows(raw) ==> r == ZeroSearchConsole
    ensures r.clicksChange == r.impressionsChange == r.ctrChange == r.positionChange == 0.0
    ensures HasGscRows(raw) ==>
      r.clicks == Sum(raw.value.rows.value, Clicks) && r.impressions == Sum(raw.value.rows.value, Impressions)
  {
    if !HasGscRows(raw) then ZeroSearchConsole
    else
      var rows := raw.value.rows.value;
      var n := |rows| as real;
      SearchConsoleData(
        Sum(rows, Clicks), Sum(rows, Impressions),
        RoundReal(Sum(rows, Ctr) / n * 10000.0) / 100.0,
        RoundReal(Sum(rows, Position) / n * 10.0) / 10.0,
        0.0, 0.0, 0.0, 0.0)
  }

  /** `formatSearchConsoleData`: accumulates the four metrics row by row, then averages CTR and position. */
  method FormatSearchConsoleData(raw: Option<GscReport>) returns (r: SearchConsoleData)
    ensures r == SearchConsoleSummary(raw)
  {
    if !HasGscRows(raw) {
      return ZeroSearchConsole;
    }
    var rows := raw.value.rows.value;
    var clicks, impressions, ctr, position := 0.0, 0.0, 0.0, 0.0;
    var i := 0;
    while i < |rows|
      invariant 0 <= i <= |rows|
      invariant clicks == Sum(rows[..i], Clicks) && impressions == Sum(rows[..i], Impressions)
      invariant ctr == Sum(rows[..i], Ctr) && position == Sum(rows[..i], Position)
    {
      assert rows[..i + 1][..i] == rows[..i];
      clicks := clicks + MetricOf(rows[i], Clicks);
      impressions := impressions + MetricOf(rows[i], Impressions);
      ctr := ctr + MetricOf(rows[i], Ctr);
      position := position + MetricOf(rows[i], Position);
      i := i + 1;
    }
    assert rows[..i] == rows;
    var rowCount := |rows|;
    ctr := if rowCount > 0 then ctr / rowCount as real else 0.0;
    position := if rowCount > 0 then position / rowCount as real else 0.0;
    r := SearchConsoleData(
      clicks, impressions, RoundReal(ctr * 10000.0) / 100.0, RoundReal(position * 10.0) / 10.0,
      0.0, 0.0, 0.0, 0.0);
  }

  /** The aggregate does not depend on the order in which the provider returns rows. */
  lemma SummaryIgnoresRowOrder(a: seq<GscRow>, b: seq<GscRow>)
    ensures SearchConsoleSummary(Some(GscReport(Some(a + b)))) == SearchConsoleSummary(Some(GscReport(Some(b + a))))
  {
    SumAppend(a, b, Clicks); SumAppend(b, a, Clicks);
    SumAppend(a, b, Impressions); SumAppend(b, a, Impressions);
    SumAppend(a, b, Ctr); SumAppend(b, a, Ctr);
    SumAppend(a, b, Position); SumAppend(b, a, Position);
  }

  /** When every row's value of a metric lies in [lo, hi], so does its unweighted mean. */
  lemma {:induction false} SumBounds(rows: seq<GscRow>, m: GscMetric, lo: real, hi: real)
    requires forall i | 0 <= i < |rows| :: lo <= MetricOf(rows[i], m) <= hi
    ensures |rows| as real * lo <= Sum(rows, m) <= |rows| as real * hi
    decreases |rows|
  {
    if rows != [] {
      var init := rows[..|rows| - 1];
      SumBounds(init, m, lo, hi);
      assert |rows| as real * lo == |init| as real * lo + lo;
      assert |rows| as real * hi == |init| as real * hi + hi;
    }
  }

  /** Two rows {10, 100, 0.1, 5} and {20, 200, 0.2, 3} aggregate to 30 clicks, 300 impressions, CTR 15 and position 4. */
  lemma SearchConsoleExample()
    ensures var rows := [
        GscRow(None, None, Some(10.0), Some(100.0), Some(0.1), Some(5.0), None),
        GscRow(None, None, Some(20.0), Some(200.0), Some(0.2), Some(3.0), None)];
      SearchConsoleSummary(Some(GscReport(Some(rows)))) == SearchConsoleData(30.0, 300.0, 15.0, 4.0, 0.0, 0.0, 0.0, 0.0)
  {
    var rows := [
        GscRow(None, None, Some(10.0), Some(100.0), Some(0.1), Some(5.0), None),
        GscRow(None, None, Some(20.0), Some(200.0), Some(0.2), Some(3.0), None)];
    assert rows[..1][..0] == [];
    assert rows[..|rows| - 1] == rows[..1];
    assert Sum(rows[..1], Ctr) == 0.1;
    assert Sum(rows, Ctr) == 0.1 + 0.2;
    assert Sum(rows[..1], Position) == 5.0;
    assert Sum(rows, Position) == 8.0;
    assert Sum(rows[..1], Clicks) == 10.0;
    assert Sum(rows, Clicks) == 30.0;
    assert Sum(rows[..1], Impressions) == 100.0;
    assert Sum(rows, Impressions) == 300.0;
    assert RoundReal(0.3 / 2.0 * 10000.0) == 1500.0;
    assert RoundReal(8.0 / 2.0 * 10.0) == 40.0;
  }

  datatype GscPoint = GscPoint(date: string, clicks: real, impressions: real, ctr: real, position: real)

  /** `row.metrics?.[0]?.values?.[i]`. */
  function GscMetricAt(row: GscRow, i: nat): Option<real> {
    match At(row.metrics, 0)
    case None => None
    case Some(m) => At(m.values, i)
  }

  /** One point of `getSearchConsoleTimeseries`: each field falls back along its `||` chain. */
  function TimeseriesPoint(row: GscRow): GscPoint {
    GscPoint(
      date := OrElse(At(row.keys, 0), OrElse(At(row.keys, 0), OrElse(At(row.dimensions, 0), "Unknown"))),
      clicks := NumOrElse(row.clicks, NumOrElse(GscMetricAt(row, 0), 0.0)),
      impressions := NumOrElse(row.impressions, NumOrElse(GscMetricAt(row, 1), 0.0)),
      ctr := NumOrElse(row.ctr, 0.0),
      position := NumOrElse(row.position, 0.0))
  }

  function TimeseriesPoints(rows: seq<GscRow>): (r: seq<GscPoint>)
    ensures |r| == |rows|
    ensures forall i | 0 <= i < |rows| :: r[i] == TimeseriesPoint(rows[i])
  {
    if rows == [] then [] else [TimeseriesPoint(rows[0])] + TimeseriesPoints(rows[1..])
  }

  /** The row mapping of `getSearchConsoleTimeseries`: `(data?.rows || []).map(...)`. */
  function SearchConsoleTimeseries(data: Option<GscReport>): (r: seq<GscPoint>)
    ensures data.None? || data.value.rows.None? ==> r == []
    ensures data.Some? && data.value.rows.Some? ==>
      |r| == |data.value.rows.value| &&
      forall i | 0 <= i < |r| :: r[i] == TimeseriesPoint(data.value.rows.value[i])
  {
    if data.None? || data.value.rows.None? then [] else TimeseriesPoints(data.value.rows.value)
  }

  /** The date is the first key when that is non-empty, else the first dimension, else 'Unknown'. */
  lemma TimeseriesDate(row: GscRow)
    ensures Truthy(At(row.keys, 0)) ==> TimeseriesPoint(row).date == row.keys.value[0]
    ensures !Truthy(At(row.keys, 0)) && Truthy(At(row.dimensions, 0)) ==> TimeseriesPoint(row).date == row.dimensions.value[0]
    ensures !Truthy(At(row.keys, 0)) && !Truthy(At(row.dimensions, 0)) ==> TimeseriesPoint(row).date == "Unknown"
  {
  }

  // ---------------------------------------------------------------- presentation helpers

  /** `Math.floor(s / 60)`: Dafny's division by a positive divisor already rounds down. */
  function FloorDiv60(s: int): int {
    s / 60
  }

  /** `s % 60` in JavaScript: the remainder takes the sign of the dividend. */
  function JsRem60(s: int): (r: int)
    ensures s >= 0 ==> r == s % 60
    ensures -60 < r < 60
  {
    if s >= 0 then s % 60 else -((-s) % 60)
  }

  /** A number the dashboard can hand to `formatDuration`: NaN or a whole number, as `Math.round` leaves it. */
  predicate WholeOrNaN(x: Num) {
    x.Val? ==> x.v == x.v.Floor as real
  }

  /**
   * `formatDuration(seconds)`: "<minutes>m <seconds>s" with `Math.floor` minutes and a
   * truncating remainder; NaN renders both parts as "NaN".
   */
  function FormatDuration(seconds: Num): string
    requires WholeOrNaN(seconds)
  {
    match seconds
    case NaN => "NaNm NaNs"
    case Val(v) => WholeDuration(v.Floor)
  }

  /** The text of `formatDuration` for a whole number of seconds. */
  function WholeDuration(seconds: int): string {
    IntToString(FloorDiv60(seconds)) + "m " + IntToString(JsRem60(seconds)) + "s"
  }

  /** The dashboard's average session duration is always one `formatDuration` renders: NaN or whole. */
  lemma DashboardDurationIsWhole(raw: Option<Ga4Report>)
    ensures WholeOrNaN(FormatDashboardData(raw).averageSessionDuration)
  {
  }

  /** "n/a" has no leading digits, so `parseFloat` gives NaN. */
  lemma NotANumber()
    ensures ParseFloat("n/a").NaN?
  {
    assert TrimStart("n/a") == "n/a";
    assert SignOf("n/a") == (false, "n/a");
    assert LeadingDigits("n/a") == [];
  }

  /** "NaNm NaNs" is not a rendering of a number of seconds. */
  lemma NaNTextDoesNotParse()
    ensures ParseDuration("NaNm NaNs").None?
  {
    var text := "NaNm NaNs";
    assert text[3] == 'm';
    assert IndexOfChar(text, 'm') == 3;
    assert !IsDigit(text[0]);
  }

  /** A duration total that is not numeric parses to NaN, and the dashboard shows "NaNm NaNs". */
  lemma NonNumericDurationShowsNaN(rows: seq<Ga4Row>)
    requires |rows| > 0
    ensures var d := FormatDashboardData(Some(Ga4Report(Some(rows), Some([MetricValues(Some(["1", "1", "1", "0.5", "n/a"]))]))))
      .averageSessionDuration;
      d.NaN? && FormatDuration(d) == "NaNm NaNs" && ParseDuration(FormatDuration(d)).None?
  {
    var values := ["1", "1", "1", "0.5", "n/a"];
    assert ValueOrZeroText(Some(values), DurationAt) == "n/a";
    DurationReadsEntry(rows, values);
    NotANumber();
    NaNTextDoesNotParse();
  }

  /** The dashboard's duration is `Math.round(parseFloat(...))` of entry 4 of the first totals row. */
  lemma DurationReadsEntry(rows: seq<Ga4Row>, values: seq<string>)
    requires |rows| > 0
    ensures FormatDashboardData(Some(Ga4Report(Some(rows), Some([MetricValues(Some(values))])))).averageSessionDuration
         == Round(ParseFloat(ValueOrZeroText(Some(values), DurationAt)))
  {
    assert HasRows(Some(Ga4Report(Some(rows), Some([MetricValues(Some(values))]))));
  }

  /** Reads "<digits>m <digits>s" back into a number of seconds; the inverse of `FormatDuration` on s >= 0. */
  function ParseDuration(text: string): Option<int> {
    if 'm' !in text then None
    else
      var i := IndexOfChar(text, 'm');
      var minutes := text[..i];
      var rest := text[i + 1..];
      if |rest| < 3 || rest[0] != ' ' || rest[|rest| - 1] != 's' then None
      else
        var secs := rest[1..|rest| - 1];
        if minutes == [] || secs == [] || !AllDigits(minutes) || !AllDigits(secs) then None
        else Some(60 * DigitsValue(minutes) + DigitsValue(secs))
  }

  /**
   * For s >= 0 the rendering names m = s div 60 minutes and r = s mod 60 seconds,
   * with 60 * m + r == s and r < 60, and reading it back gives s.
   */
  lemma {:induction false} FormatDurationRoundTrip(s: int)
    requires s >= 0
    ensures FormatDuration(Val(s as real)) == NatToString(s / 60) + "m " + NatToString(s % 60) + "s"
    ensures 60 * (s / 60) + s % 60 == s && s % 60 < 60
    ensures ParseDuration(FormatDuration(Val(s as real))) == Some(s)
  {
    assert (s as real).Floor == s;
    WholeDurationRoundTrip(s);
  }

  /** The round trip of `FormatDurationRoundTrip` for the text of a whole number of seconds. */
  lemma {:induction false} WholeDurationRoundTrip(s: int)
    requires s >= 0
    ensures WholeDuration(s) == NatToString(s / 60) + "m " + NatToString(s % 60) + "s"
    ensures ParseDuration(WholeDuration(s)) == Some(s)
  {
    var m := NatToString(s / 60);
    var r := NatToString(s % 60);
    assert WholeDuration(s) == m + "m " + r + "s";
    NatToStringRoundTrip(s / 60);
    NatToStringRoundTrip(s % 60);
    ParseDurationOfDigits(m, r, s / 60, s % 60);
  }

  /** Two non-empty digit strings joined as "<m>m <r>s" read back as 60 * m + r. */
  lemma ParseDurationOfDigits(m: string, r: string, minutes: nat, seconds: nat)
    requires m != [] && r != [] && AllDigits(m) && AllDigits(r)
    requires DigitsValue(m) == minutes && DigitsValue(r) == seconds
    ensures ParseDuration(m + "m " + r + "s") == Some(60 * minutes + seconds)
  {
    var text := m + "m " + r + "s";
    assert 'm' !in m by {
      forall j | 0 <= j < |m| ensures m[j] != 'm' { assert IsDigit(m[j]); }
    }
    assert text == m + ['m'] + (" " + r + "s");
    IndexOfJoined(m, 'm', " " + r + "s");
    assert text[..|m|] == m;
    var rest := " " + r + "s";
    assert text[|m| + 1..] == rest;
    assert rest[1..|rest| - 1] == r;
  }

  /** In `a + [c] + b` where `a` has no `c`, the first `c` is at `|a|`. */
  lemma IndexOfJoined(a: string, c: char, b: string)
    requires c !in a
    ensures c in a + [c] + b && IndexOfChar(a + [c] + b, c) == |a|
  {
    var text := a + [c] + b;
    assert text[|a|] == c;
    assert text[..|a|] == a;
  }

  /** 125 seconds render as "2m 5s". */
  lemma FormatDurationExample()
    ensures FormatDuration(Val(125.0)) == "2m 5s"
  {
  }

  /** Negative inputs follow JavaScript: -61 seconds render as "-2m -1s". */
  lemma FormatDurationNegative()
    ensures FormatDuration(Val(-61.0)) == "-2m -1s"
  {
  }

  /**
   * The result of `formatNumber`: the scaled value whose `toFixed(1)` rendering precedes
   * the suffix, or the plain number rendered by `toLocaleString`. The digit rendering
   * itself is not modelled.
   */
  datatype NumberText = Millions(scaled: real) | Thousands(scaled: real) | Plain(value: Num)

  function Suffix(t: NumberText): string {
    match t
    case Millions(_) => "M"
    case Thousands(_) => "K"
    case Plain(_) => ""
  }

  /** `formatNumber`: 'M' from one million up, 'K' from one thousand below a million, no suffix otherwise (NaN included). */
  function FormatNumber(n: Num): (t: NumberText)
    ensures Suffix(t) == "M" <==> n.Val? && n.v >= 1000000.0
    ensures Suffix(t) == "K" <==> n.Val? && 1000.0 <= n.v < 1000000.0
    ensures Suffix(t) == "" <==> n.NaN? || n.v < 1000.0
    ensures t.Millions? ==> t.scaled * 1000000.0 == n.v
    ensures t.Thousands? ==> t.scaled * 1000.0 == n.v
    ensures t.Plain? ==> t.value == n
  {
    if n.Val? && n.v >= 1000000.0 then Millions(n.v / 1000000.0)
    else if n.Val? && n.v >= 1000.0 then Thousands(n.v / 1000.0)
    else Plain(n)
  }

  /** 1500 renders as 1.5 with 'K'; 2500000 as 2.5 with 'M'. */
  lemma FormatNumberExamples()
    ensures FormatNumber(Val(1500.0)) == Thousands(1.5)
    ensures FormatNumber(Val(2500000.0)) == Millions(2.5)
  {
  }

  /** The result of `formatPercentageChange`: the explicit sign and the number that `toFixed(1)` renders. */
  datatype ChangeText = ChangeText(sign: string, change: Num)

  const ChangeCaption := "% from last month"

  /** `formatPercentageChange`: '+' exactly when the change is at least 0; negatives carry their own '-'. */
  function FormatPercentageChange(change: Num): (t: ChangeText)
    ensures t.sign == "+" <==> change.Val? && change.v >= 0.0
    ensures t.sign == "" <==> !(change.Val? && change.v >= 0.0)
    ensures t.change == change
  {
    ChangeText(if change.Val? && change.v >= 0.0 then "+" else "", change)
  }
}
