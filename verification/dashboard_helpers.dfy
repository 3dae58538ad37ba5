/**
 * Two helpers of the web dashboard page: reading a GA4 property id out of a
 * property's resource name, and the `start|end` value of the date-range selector.
 */
module DashboardHelpers {
  import opened Wrappers
  import opened Text
  import opened Js

  /** The literal part of `/properties\/(\d+)/`. */
  const Marker := "properties/"

  /** The pattern matches at `i`: the marker, then at least one digit. */
  predicate MatchesAt(s: string, i: nat) {
    OccursAt(s, Marker, i) && i + |Marker| < |s| && IsDigit(s[i + |Marker|])
  }

  /** The leftmost position at or after `from` where the pattern matches. */
  function FirstMatch(s: string, from: nat): (r: Option<nat>)
    ensures r.Some? ==> from <= r.value && MatchesAt(s, r.value)
    ensures r.Some? ==> forall j | from <= j < r.value :: !MatchesAt(s, j)
    ensures r.None? ==> forall j | from <= j :: !MatchesAt(s, j)
    decreases |s| - from
  {
    if from + |Marker| >= |s| then None
    else if MatchesAt(s, from) then Some(from)
    else FirstMatch(s, from + 1)
  }

  /**
   * `extractPropertyId`: null for a missing or empty name; otherwise the digit run of the
   * leftmost match of the unanchored pattern, or null when nothing matches.
   */
  function ExtractPropertyId(name: Option<string>): (r: Option<string>)
    ensures !Truthy(name) ==> r.None?
    ensures Truthy(name) ==> (r.Some? <==> exists i :: MatchesAt(name.value, i))
    ensures r.Some? ==> |r.value| >= 1 && AllDigits(r.value)
    ensures r.Some? ==> exists i: nat ::
      && MatchesAt(name.value, i)
      && (forall j | 0 <= j < i :: !MatchesAt(name.value, j))
      && r.value == LeadingDigits(name.value[i + |Marker|..])
  {
    if !Truthy(name) then None
    else match FirstMatch(name.value, 0)
      case None => None
      case Some(i) =>
        var digits := LeadingDigits(name.value[i + |Marker|..]);
        assert digits[0] == name.value[i + |Marker|];
        Some(digits)
  }

  /** Reading the id back from `properties/<id>`, the path the server builds, gives the id. */
  lemma ExtractPropertyIdRoundTrip(id: string)
    requires |id| >= 1 && AllDigits(id)
    ensures ExtractPropertyId(Some(Marker + id)) == Some(id)
  {
    var s := Marker + id;
    assert s[..|Marker|] == Marker;
    assert s[|Marker|] == id[0];
    assert MatchesAt(s, 0);
    assert s[|Marker|..] == id;
    LeadingDigitsOfDigits(id);
  }

  /** A name with no digit after the marker yields null. */
  lemma NoDigitsNoId()
    ensures ExtractPropertyId(Some("properties/abc")) == None
  {
    var s := "properties/abc";
    forall i: nat
      ensures !MatchesAt(s, i)
    {
      if i + |Marker| < |s| {
        assert !IsDigit(s[i + |Marker|]);
      }
    }
  }

  /** The pattern is unanchored and skips a marker that no digit follows. */
  lemma LeftmostMatchWithDigits()
    ensures ExtractPropertyId(Some(SkippedMarkerExample)) == Some("5")
  {
    var s := SkippedMarkerExample;
    OnlyMatchOfExample();
    var r := FirstMatch(s, 0);
    assert r.Some?;
    assert r.value == 13;
    assert s[13 + |Marker|..] == "5";
    LeadingDigitsOfDigits("5");
  }

  const SkippedMarkerExample := "properties/x/properties/5"

  lemma OnlyMatchOfExample()
    ensures MatchesAt(SkippedMarkerExample, 13)
    ensures forall i: nat | MatchesAt(SkippedMarkerExample, i) :: i == 13
  {
    var s := SkippedMarkerExample;
    assert s[13..24] == Marker;
    forall i: nat | MatchesAt(s, i)
      ensures i == 13
    {
      var k := i + |Marker|;
      assert k < 25 && IsDigit(s[k]);
      assert s[..24] == "properties/x/properties/";
    }
  }

  /** `e.target.value || null`: the empty option selects nothing. */
  function SelectedProperty(value: string): (r: Option<string>)
    ensures r.None? <==> value == ""
    ensures r.Some? ==> r.value == value
  {
    if value == "" then None else Some(value)
  }

  /** `pid ?? ''`: the value of a property's option. */
  function OptionValue(id: Option<string>): string {
    id.GetOr("")
  }

  /** Choosing a property's option selects exactly the id extracted from it, or nothing when it has none. */
  lemma SelectingAPropertyGivesItsId(name: Option<string>)
    ensures SelectedProperty(OptionValue(ExtractPropertyId(name))) == ExtractPropertyId(name)
  {
  }

  /** The value after `split('|')` and destructuring: the end is undefined when there is no separator. */
  datatype DateRange = DateRange(startDate: string, endDate: Option<string>)

  /** The selector's value, `${startDate}|${endDate}`. */
  function EncodeDateRange(startDate: string, endDate: string): string {
    startDate + "|" + endDate
  }

  /** `const [startDate, endDate] = value.split('|')`. */
  function DecodeDateRange(value: string): (r: DateRange)
    ensures '|' !in r.startDate
    ensures '|' !in value ==> r == DateRange(value, None)
    ensures r.endDate.Some? ==> '|' !in r.endDate.value
  {
    var parts := SplitOn(value, '|');
    if |parts| == 1 then DateRange(parts[0], None)
    else
      assert '|' !in SplitOn(value[IndexOfChar(value, '|') + 1..], '|')[0];
      DateRange(parts[0], Some(parts[1]))
  }

  /** Splitting recovers both ends whenever neither contains '|'. */
  lemma DateRangeRoundTrip(startDate: string, endDate: string)
    requires '|' !in startDate && '|' !in endDate
    ensures DecodeDateRange(EncodeDateRange(startDate, endDate)) == DateRange(startDate, Some(endDate))
  {
    SplitOnJoined(startDate, '|', endDate);
    assert EncodeDateRange(startDate, endDate) == startDate + ['|'] + endDate;
  }

  /** An end containing '|' is cut at its first '|': the round trip needs both ends free of the separator. */
  lemma DateRangeEndIsCut(startDate: string, endDate: string, rest: string)
    requires '|' !in startDate && '|' !in endDate
    ensures DecodeDateRange(EncodeDateRange(startDate, endDate + "|" + rest)) == DateRange(startDate, Some(endDate))
  {
    SplitOnJoined(startDate, '|', endDate + "|" + rest);
    SplitOnJoined(endDate, '|', rest);
    assert EncodeDateRange(startDate, endDate + "|" + rest) == startDate + ['|'] + (endDate + "|" + rest);
    assert endDate + "|" + rest == endDate + ['|'] + rest;
  }

  /** The six options of the selector. */
  const DateRangeOptions: seq<(string, string)> := [
    ("7daysAgo", "today"), ("30daysAgo", "today"), ("90daysAgo", "today"),
    ("365daysAgo", "today"), ("730daysAgo", "today"), ("2020-01-01", "today")]

  /** Every offered option decodes to the range it encodes. */
  lemma OptionsRoundTrip()
    ensures forall k | 0 <= k < |DateRangeOptions| ::
      DecodeDateRange(EncodeDateRange(DateRangeOptions[k].0, DateRangeOptions[k].1)) ==
      DateRange(DateRangeOptions[k].0, Some(DateRangeOptions[k].1))
  {
    forall k | 0 <= k < |DateRangeOptions|
      ensures DecodeDateRange(EncodeDateRange(DateRangeOptions[k].0, DateRangeOptions[k].1)) ==
        DateRange(DateRangeOptions[k].0, Some(DateRangeOptions[k].1))
    {
      DateRangeRoundTrip(DateRangeOptions[k].0, DateRangeOptions[k].1);
    }
  }
}
