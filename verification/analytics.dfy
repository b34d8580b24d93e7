/**
 * The analytics provider as the server sees it: one report query per call, which
 * either throws or returns a response whose `rows` may be missing.
 */
module Analytics {
  import opened Js
  import opened DateRanges

  /** One row of a report: the `.value` of each dimension and each metric, as text. */
  datatype Row = Row(dimensionValues: seq<string>, metricValues: seq<string>)

  /** The outcome of one `runReport` call. */
  datatype Outcome = Threw | Returned(rows: Option<seq<Row>>)

  /**
   * The six queries the server issues. BasicMetrics: activeUsers, screenPageViews,
   * sessions, averageSessionDuration. TrafficSources: sessions by channel group,
   * limit 5. TopPages: page views by page path, descending, limit 5. TopJobPages: the
   * same, filtered to paths containing "job" in any case. PageCategories: page views
   * by page path, limit 100. AdditionalMetrics: bounceRate, conversions, eventCount,
   * newUsers.
   */
  datatype ReportKind = BasicMetrics | TrafficSources | TopPages | TopJobPages | PageCategories | AdditionalMetrics

  datatype Request = Request(kind: ReportKind, window: Window)

  /** The provider answers each request; it is the only way the server learns any metric. */
  type Provider = Request -> Outcome

  /** The response has at least one row: `response.rows && response.rows.length > 0`. */
  predicate HasRows(o: Outcome) {
    o.Returned? && o.rows.Some? && |o.rows.value| > 0
  }

  /** A row with a first dimension value and a first metric value to read. */
  predicate WellFormedRow(row: Row) {
    |row.dimensionValues| >= 1 && |row.metricValues| >= 1
  }

  predicate AllWellFormed(rows: seq<Row>) {
    forall i :: 0 <= i < |rows| ==> WellFormedRow(rows[i])
  }
}
