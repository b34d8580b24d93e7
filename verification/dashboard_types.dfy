/** The shape of the dashboard report that the server sends and the page exports. */
module DashboardTypes {
  import opened Js

  /**
   * One labelled KPI with its today, month-to-date and year-to-date values
   * (`labelText` is the `label` field; `label` is a Dafny keyword).
   */
  datatype KPIMetric = KPIMetric(
    labelText: string,
    today: Cell,
    mtd: Cell,
    ytd: Cell,
    isCurrency: Option<bool>,
    notes: Option<string>)

  /** A traffic source and its session count. */
  datatype ChartDataPoint = ChartDataPoint(name: string, value: Num)

  /** A page path and its page views. */
  datatype PageViews = PageViews(pageName: string, views: Num)

  /** A page category and its summed page views. */
  datatype CategoryViews = CategoryViews(name: string, val: Num)

  datatype DashboardData = DashboardData(
    growthFunnel: seq<KPIMetric>,
    businessMetrics: seq<KPIMetric>,
    jobPortalMetrics: seq<KPIMetric>,
    candidateMetrics: seq<KPIMetric>,
    employerMetrics: seq<KPIMetric>,
    websitePerformance: seq<KPIMetric>,
    trafficSources: seq<ChartDataPoint>,
    topPages: seq<PageViews>,
    topJobPages: seq<PageViews>,
    pageViewsByCategory: Option<seq<CategoryViews>>)
}
