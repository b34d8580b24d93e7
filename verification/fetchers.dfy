/**
 * The server's fetch helpers: each turns the outcome of one provider query into a
 * snapshot, `null`, or a list, and never lets the provider's exception escape.
 */
module Fetchers {
  import opened Js
  import opened Digits
  import opened JsNumbers
  import opened Analytics
  import opened DashboardTypes

  /** activeUsers, screenPageViews, sessions and averageSessionDuration of one window. */
  datatype MetricSnapshot = MetricSnapshot(activeUsers: Num, pageViews: Num, sessions: Num, avgDuration: Num)

  /** bounceRate, conversions, eventCount and newUsers of one window. */
  datatype AdditionalSnapshot = AdditionalSnapshot(bounceRate: Num, conversions: Num, eventCount: Num, newUsers: Num)

  /** A field read with `|| 0`: the parsed number, or 0 when the text did not parse. */
  predicate ReadOrZero(field: Num, parsed: Num) {
    if parsed.NaN? then field == Zero else field == parsed
  }

  /**
   * getGA4Metrics: `null` (None) when the query throws or the first row lacks one
   * of its four metric values; zeros when there are no rows; otherwise the first
   * row's values, each unparseable one read as 0.
   */
  function GetGA4Metrics(o: Outcome): (s: Option<MetricSnapshot>)
    ensures s.None? <==> o.Threw? || (HasRows(o) && |o.rows.value[0].metricValues| < 4)
    ensures o.Returned? && !HasRows(o) ==> s == Some(MetricSnapshot(Zero, Zero, Zero, Zero))
    ensures s.Some? ==>
      s.value.activeUsers.Finite? && s.value.pageViews.Finite? && s.value.sessions.Finite? && s.value.avgDuration.Finite?
    ensures s.Some? && HasRows(o) ==>
      var m := o.rows.value[0].metricValues;
      && ReadOrZero(s.value.activeUsers, ParseInt(m[0])) && ReadOrZero(s.value.pageViews, ParseInt(m[1]))
      && ReadOrZero(s.value.sessions, ParseInt(m[2])) && ReadOrZero(s.value.avgDuration, ParseFloat(m[3]))
  {
    if o.Threw? then None
    else if HasRows(o) then
      var m := o.rows.value[0].metricValues;
      if |m| < 4 then None  // reading a missing metric value throws, and the catch returns null
      else Some(MetricSnapshot(
        OrZero(ParseInt(m[0])), OrZero(ParseInt(m[1])), OrZero(ParseInt(m[2])), OrZero(ParseFloat(m[3]))))
    else Some(MetricSnapshot(Zero, Zero, Zero, Zero))
  }

  /** A report row holding the given metric strings and no dimension. */
  function MetricRow(metricValues: seq<string>): Row {
    Row([], metricValues)
  }

  /**
   * The provider's first row is read field by field, whatever rows follow it:
   * integer counts exactly and the average duration as the decimal it writes.
   */
  lemma GA4MetricsReadFirstRow(users: int, views: int, sessions: int, whole: string, fraction: string, more: seq<Row>)
    requires AllDigits(whole) && AllDigits(fraction) && whole + fraction != []
    ensures var row := MetricRow([IntToString(users), IntToString(views), IntToString(sessions), whole + "." + fraction]);
      GetGA4Metrics(Returned(Some([row] + more)))
        == Some(MetricSnapshot(Finite(users as real), Finite(views as real), Finite(sessions as real),
                               Finite(DecimalValue(whole, fraction))))
  {
    var m := [IntToString(users), IntToString(views), IntToString(sessions), whole + "." + fraction];
    var o := Returned(Some([MetricRow(m)] + more));
    assert HasRows(o) && o.rows.value[0].metricValues == m;
    ParseOfIntToString(users);
    ParseOfIntToString(views);
    ParseOfIntToString(sessions);
    ParseFloatDecimal(false, whole, fraction);
    assert ParseFloat(m[3]) == Finite(DecimalValue(whole, fraction));
  }

  /** A first-row metric text with no digit becomes 0 in its field. */
  lemma GA4MetricsUnreadableIsZero(m: seq<string>, more: seq<Row>)
    requires |m| >= 4
    ensures var s := GetGA4Metrics(Returned(Some([MetricRow(m)] + more)));
      && s.Some?
      && (NoDigit(m[0]) ==> s.value.activeUsers == Zero)
      && (NoDigit(m[1]) ==> s.value.pageViews == Zero)
      && (NoDigit(m[2]) ==> s.value.sessions == Zero)
      && (NoDigit(m[3]) ==> s.value.avgDuration == Zero)
  {
    var o := Returned(Some([MetricRow(m)] + more));
    assert HasRows(o) && o.rows.value[0].metricValues == m;
    if NoDigit(m[0]) { NoDigitsIsNaN(m[0]); }
    if NoDigit(m[1]) { NoDigitsIsNaN(m[1]); }
    if NoDigit(m[2]) { NoDigitsIsNaN(m[2]); }
    if NoDigit(m[3]) { NoDigitsIsNaN(m[3]); }
  }

  /**
   * getAdditionalMetrics: `null` when the query throws or the first row lacks a
   * value; zeros when there are no rows; otherwise the first row's values, where an
   * unparseable one stays NaN (there is no `|| 0` here).
   */
  function GetAdditionalMetrics(o: Outcome): (s: Option<AdditionalSnapshot>)
    ensures s.None? <==> o.Threw? || (HasRows(o) && |o.rows.value[0].metricValues| < 4)
    ensures o.Returned? && !HasRows(o) ==> s == Some(AdditionalSnapshot(Zero, Zero, Zero, Zero))
  {
    if o.Threw? then None
    else if HasRows(o) then
      var m := o.rows.value[0].metricValues;
      if |m| < 4 then None
      else Some(AdditionalSnapshot(ParseFloat(m[0]), ParseFloat(m[1]), ParseInt(m[2]), ParseInt(m[3])))
    else Some(AdditionalSnapshot(Zero, Zero, Zero, Zero))
  }

  /**
   * The first row is read field by field: the bounce rate as the decimal it
   * writes and the integer counts exactly.
   */
  lemma AdditionalMetricsReadFirstRow(whole: string, fraction: string, conversions: int, events: int, newUsers: int,
    more: seq<Row>)
    requires AllDigits(whole) && AllDigits(fraction) && whole + fraction != []
    ensures var row := MetricRow([whole + "." + fraction, IntToString(conversions), IntToString(events), IntToString(newUsers)]);
      GetAdditionalMetrics(Returned(Some([row] + more)))
        == Some(AdditionalSnapshot(Finite(DecimalValue(whole, fraction)), Finite(conversions as real),
                                   Finite(events as real), Finite(newUsers as real)))
  {
    var m := [whole + "." + fraction, IntToString(conversions), IntToString(events), IntToString(newUsers)];
    var o := Returned(Some([MetricRow(m)] + more));
    assert HasRows(o) && o.rows.value[0].metricValues == m;
    ParseFloatDecimal(false, whole, fraction);
    ParseOfIntToString(conversions);
    ParseOfIntToString(events);
    ParseOfIntToString(newUsers);
  }

  /** Unlike getGA4Metrics, a first-row text with no digit stays NaN: there is no `|| 0` here. */
  lemma AdditionalMetricsUnreadableIsNaN(m: seq<string>, more: seq<Row>)
    requires |m| >= 4
    ensures var s := GetAdditionalMetrics(Returned(Some([MetricRow(m)] + more)));
      && s.Some?
      && (NoDigit(m[0]) ==> s.value.bounceRate == NaN)
      && (NoDigit(m[1]) ==> s.value.conversions == NaN)
      && (NoDigit(m[2]) ==> s.value.eventCount == NaN)
      && (NoDigit(m[3]) ==> s.value.newUsers == NaN)
  {
    var o := Returned(Some([MetricRow(m)] + more));
    assert HasRows(o) && o.rows.value[0].metricValues == m;
    assert GetAdditionalMetrics(o) == Some(AdditionalSnapshot(ParseFloat(m[0]), ParseFloat(m[1]), ParseInt(m[2]), ParseInt(m[3])));
    if NoDigit(m[0]) { NoDigitsIsNaN(m[0]); }
    if NoDigit(m[1]) { NoDigitsIsNaN(m[1]); }
    if NoDigit(m[2]) { NoDigitsIsNaN(m[2]); }
    if NoDigit(m[3]) { NoDigitsIsNaN(m[3]); }
  }

  /**
   * getTrafficSources: `[]` when the query throws, when `rows` is missing (mapping
   * over it throws) or when some row lacks a value; otherwise one entry per row.
   */
  function GetTrafficSources(o: Outcome): (r: seq<ChartDataPoint>)
    ensures o.Threw? || (o.Returned? && o.rows.None?) ==> r == []
    ensures o.Returned? && o.rows.Some? && AllWellFormed(o.rows.value) ==> |r| == |o.rows.value|
  {
    if o.Threw? || o.rows.None? || !AllWellFormed(o.rows.value) then []
    else
      var rows := o.rows.value;
      seq(|rows|, i requires 0 <= i < |rows| =>
        ChartDataPoint(rows[i].dimensionValues[0], ParseInt(rows[i].metricValues[0])))
  }

  /** getTopPages: as getTrafficSources, one `{pageName, views}` per row. */
  function GetTopPages(o: Outcome): (r: seq<PageViews>)
    ensures o.Threw? || (o.Returned? && o.rows.None?) ==> r == []
    ensures o.Returned? && o.rows.Some? && AllWellFormed(o.rows.value) ==> |r| == |o.rows.value|
  {
    if o.Threw? || o.rows.None? || !AllWellFormed(o.rows.value) then []
    else
      var rows := o.rows.value;
      seq(|rows|, i requires 0 <= i < |rows| =>
        PageViews(rows[i].dimensionValues[0], ParseInt(rows[i].metricValues[0])))
  }

  /** getTopJobPages: `[]` when the query throws or finds no rows, else one entry per row. */
  function GetTopJobPages(o: Outcome): (r: seq<PageViews>)
    ensures !HasRows(o) ==> r == []
    ensures HasRows(o) && AllWellFormed(o.rows.value) ==> |r| == |o.rows.value|
  {
    if o.Threw? then []
    else if !HasRows(o) then []
    else if !AllWellFormed(o.rows.value) then []
    else
      var rows := o.rows.value;
      seq(|rows|, i requires 0 <= i < |rows| =>
        PageViews(rows[i].dimensionValues[0], ParseInt(rows[i].metricValues[0])))
  }

  /**
   * The early `return []` of getTopJobPages on missing or empty rows changes
   * nothing observable: mapping no rows gives `[]`, and mapping a missing `rows`
   * throws into the same `[]`.
   */
  lemma TopJobPagesLikeTopPages(o: Outcome)
    ensures GetTopJobPages(o) == GetTopPages(o)
  {
  }

  /** The rows a provider would send for these names and counts, counts printed as integers. */
  function CountRows(entries: seq<(string, int)>): (rows: seq<Row>)
    ensures |rows| == |entries| && AllWellFormed(rows)
  {
    seq(|entries|, i requires 0 <= i < |entries| => Row([entries[i].0], [IntToString(entries[i].1)]))
  }

  /** Rows map one to one onto entries, keeping the provider's order, names and counts. */
  lemma {:induction false} TrafficSourcesOneToOne(sources: seq<(string, int)>)
    ensures var r := GetTrafficSources(Returned(Some(CountRows(sources))));
      |r| == |sources|
      && forall i :: 0 <= i < |r| ==> r[i] == ChartDataPoint(sources[i].0, Finite(sources[i].1 as real))
  {
    var r := GetTrafficSources(Returned(Some(CountRows(sources))));
    forall i | 0 <= i < |r|
      ensures r[i] == ChartDataPoint(sources[i].0, Finite(sources[i].1 as real))
    {
      ParseOfIntToString(sources[i].1);
    }
  }

  lemma {:induction false} TopPagesOneToOne(pages: seq<(string, int)>)
    ensures var r := GetTopPages(Returned(Some(CountRows(pages))));
      |r| == |pages|
      && forall i :: 0 <= i < |r| ==> r[i] == PageViews(pages[i].0, Finite(pages[i].1 as real))
    ensures GetTopJobPages(Returned(Some(CountRows(pages)))) == GetTopPages(Returned(Some(CountRows(pages))))
  {
    var r := GetTopPages(Returned(Some(CountRows(pages))));
    forall i | 0 <= i < |r|
      ensures r[i] == PageViews(pages[i].0, Finite(pages[i].1 as real))
    {
      ParseOfIntToString(pages[i].1);
    }
    TopJobPagesLikeTopPages(Returned(Some(CountRows(pages))));
  }
}
