/**
 * The `/api/dashboard-data` handler: resolves the date ranges, sends the ten
 * analytics queries, shapes their results into the report, and answers 500 when
 * anything escapes.
 */
module Endpoint {
  import opened Js
  import opened Calendar
  import opened DateRanges
  import opened Analytics
  import opened Fetchers
  import opened Categories
  import opened DashboardTypes
  import opened Response

  /** The `startDate` and `endDate` query parameters. */
  datatype Query = Query(startDate: Option<string>, endDate: Option<string>)

  datatype HttpResponse = Ok200(body: DashboardData) | Error500(error: string)

  const InternalServerError: string := "Internal Server Error"

  /**
   * The ten queries of the `Promise.all`, in its order: basic metrics of the
   * selected, month-to-date and year-to-date windows; the four breakdowns; the
   * additional metrics of the same three windows.
   */
  function Plan(w: Windows): (p: seq<Request>)
    ensures |p| == 10
  {
    [
      Request(BasicMetrics, w.selected),
      Request(BasicMetrics, w.mtd),
      Request(BasicMetrics, w.ytd),
      Request(TrafficSources, w.breakdown),
      Request(TopPages, w.breakdown),
      Request(TopJobPages, w.breakdown),
      Request(PageCategories, w.breakdown),
      Request(AdditionalMetrics, w.selected),
      Request(AdditionalMetrics, w.mtd),
      Request(AdditionalMetrics, w.ytd)
    ]
  }

  /** The ten results, each query's outcome shaped by its fetcher. */
  function Fetch(w: Windows, provider: Provider): FetchResults {
    var p := Plan(w);
    FetchResults(
      GetGA4Metrics(provider(p[0])),
      GetGA4Metrics(provider(p[1])),
      GetGA4Metrics(provider(p[2])),
      GetTrafficSources(provider(p[3])),
      GetTopPages(provider(p[4])),
      GetTopJobPages(provider(p[5])),
      PageViewsByCategory(provider(p[6])),
      GetAdditionalMetrics(provider(p[7])),
      GetAdditionalMetrics(provider(p[8])),
      GetAdditionalMetrics(provider(p[9])))
  }

  /** The queries the handler sends: none when the end date is rejected. */
  function Queries(q: Query, today: Date): seq<Request>
    requires ValidClock(today)
  {
    match DateRangesFor(q.endDate, today)
    case None => []
    case Some(r) => Plan(SelectWindows(q.startDate, r))
  }

  /** What the handler answers. */
  function DashboardSpec(q: Query, today: Date, provider: Provider): HttpResponse
    requires ValidClock(today)
  {
    match DateRangesFor(q.endDate, today)
    case None => Error500(InternalServerError)
    case Some(r) => Ok200(BuildDashboardData(Fetch(SelectWindows(q.startDate, r), provider)))
  }

  /** The `/api/dashboard-data` handler. */
  method GetDashboardData(q: Query, today: Date, provider: Provider) returns (res: HttpResponse)
    requires ValidClock(today)
    ensures res == DashboardSpec(q, today, provider)
  {
    var ranges := GetDateRanges(q.endDate, today);
    if ranges.None? {
      // the RangeError of getDateRanges reaches the handler's catch
      return Error500(InternalServerError);
    }
    var r := ranges.value;
    var selectedStart := if Given(q.startDate) then q.startDate.value else r.todayStr;
    var selectedEnd := r.endStr;
    var breakdownStart := if !Given(q.startDate) then r.mtdStart else selectedStart;
    var selected := Window(selectedStart, selectedEnd);
    var mtd := Window(r.mtdStart, r.endStr);
    var ytd := Window(r.ytdStart, r.endStr);
    var breakdown := Window(breakdownStart, selectedEnd);
    var todayData := GetGA4Metrics(provider(Request(BasicMetrics, selected)));
    var mtdData := GetGA4Metrics(provider(Request(BasicMetrics, mtd)));
    var ytdData := GetGA4Metrics(provider(Request(BasicMetrics, ytd)));
    var trafficSources := GetTrafficSources(provider(Request(TrafficSources, breakdown)));
    var topPages := GetTopPages(provider(Request(TopPages, breakdown)));
    var topJobPages := GetTopJobPages(provider(Request(TopJobPages, breakdown)));
    var pageViewsByCategory := GetPageViewsByCategory(provider(Request(PageCategories, breakdown)));
    var todayAdditional := GetAdditionalMetrics(provider(Request(AdditionalMetrics, selected)));
    var mtdAdditional := GetAdditionalMetrics(provider(Request(AdditionalMetrics, mtd)));
    var ytdAdditional := GetAdditionalMetrics(provider(Request(AdditionalMetrics, ytd)));
    var results := FetchResults(todayData, mtdData, ytdData, trafficSources, topPages, topJobPages,
      pageViewsByCategory, todayAdditional, mtdAdditional, ytdAdditional);
    res := Ok200(BuildDashboardData(results));
  }

  /**
   * The handler answers 500 with 'Internal Server Error' exactly when the end date
   * is given but is not `YYYY-MM-DD` with a month from 1 to 12 and a day from 1 to
   * 31; the provider's failures never reach it.
   */
  lemma FailsOnlyOnBadEndDate(q: Query, today: Date, provider: Provider)
    requires ValidClock(today)
    ensures DashboardSpec(q, today, provider).Error500? <==> Given(q.endDate) && !Readable(q.endDate.value)
    ensures DashboardSpec(q, today, provider).Error500? ==> DashboardSpec(q, today, provider).error == "Internal Server Error"
  {
    DateRangesMeaning(q.endDate, today);
  }

  /** The answer depends on the provider only through the ten planned queries. */
  lemma OnlyPlannedQueriesMatter(q: Query, today: Date, p1: Provider, p2: Provider)
    requires ValidClock(today)
    requires forall req :: req in Queries(q, today) ==> p1(req) == p2(req)
    ensures DashboardSpec(q, today, p1) == DashboardSpec(q, today, p2)
  {
    match DateRangesFor(q.endDate, today)
    case None =>
    case Some(r) =>
      var p := Plan(SelectWindows(q.startDate, r));
      assert p1(p[0]) == p2(p[0]) && p1(p[1]) == p2(p[1]) && p1(p[2]) == p2(p[2]);
      assert p1(p[3]) == p2(p[3]) && p1(p[4]) == p2(p[4]) && p1(p[5]) == p2(p[5]) && p1(p[6]) == p2(p[6]);
      assert p1(p[7]) == p2(p[7]) && p1(p[8]) == p2(p[8]) && p1(p[9]) == p2(p[9]);
  }

  /**
   * The four breakdown queries cover the month to date when no start date is
   * given, else the user's range; all ten queries end on the resolved end date.
   */
  lemma BreakdownWindow(q: Query, today: Date)
    requires ValidClock(today) && DateRangesFor(q.endDate, today).Some?
    ensures var r := DateRangesFor(q.endDate, today).value;
      var qs := Queries(q, today);
      && |qs| == 10
      && (forall i :: 0 <= i < 10 ==> qs[i].window.endDate == r.endStr)
      && (forall i :: 3 <= i < 7 ==>
        qs[i].window == Window(if Given(q.startDate) then q.startDate.value else r.mtdStart, r.endStr))
      && [qs[3].kind, qs[4].kind, qs[5].kind, qs[6].kind] == [TrafficSources, TopPages, TopJobPages, PageCategories]
  {
  }

  /**
   * Failures are isolated: when only the top-pages query throws, the report is
   * the one a working provider gives, with an empty top-pages list.
   */
  lemma TopPagesFailureIsolated(q: Query, today: Date, broken: Provider, working: Provider)
    requires ValidClock(today) && DateRangesFor(q.endDate, today).Some?
    requires forall req: Request :: req.kind != TopPages ==> broken(req) == working(req)
    requires forall req: Request :: req.kind == TopPages ==> broken(req) == Threw
    ensures DashboardSpec(q, today, broken).Ok200? && DashboardSpec(q, today, working).Ok200?
    ensures DashboardSpec(q, today, broken).body == DashboardSpec(q, today, working).body.(topPages := [])
  {
    var r := DateRangesFor(q.endDate, today).value;
    var p := Plan(SelectWindows(q.startDate, r));
    assert broken(p[4]) == Threw;
    assert broken(p[0]) == working(p[0]) && broken(p[1]) == working(p[1]) && broken(p[2]) == working(p[2]);
    assert broken(p[3]) == working(p[3]) && broken(p[5]) == working(p[5]) && broken(p[6]) == working(p[6]);
    assert broken(p[7]) == working(p[7]) && broken(p[8]) == working(p[8]) && broken(p[9]) == working(p[9]);
  }

  /** When every query throws, the handler still answers 200 with the all-zero report. */
  lemma EveryQueryThrows(q: Query, today: Date, provider: Provider)
    requires ValidClock(today) && DateRangesFor(q.endDate, today).Some?
    requires forall req: Request :: provider(req) == Threw
    ensures DashboardSpec(q, today, provider) == Ok200(BuildDashboardData(AllFailed))
  {
  }
}
