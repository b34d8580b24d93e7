/**
 * The `dashboardData` object the endpoint sends: six KPI sections whose live cells
 * come from the metric snapshots (with `?.` and `|| 0` defaults) and whose other
 * rows are constant placeholders, followed by the four breakdown lists.
 */
module Response {
  import opened Js
  import opened DashboardTypes
  import opened Fetchers

  /** The ten values the endpoint's `Promise.all` resolves to, in its order. */
  datatype FetchResults = FetchResults(
    todayData: Option<MetricSnapshot>,
    mtdData: Option<MetricSnapshot>,
    ytdData: Option<MetricSnapshot>,
    trafficSources: seq<ChartDataPoint>,
    topPages: seq<PageViews>,
    topJobPages: seq<PageViews>,
    pageViewsByCategory: seq<CategoryViews>,
    todayAdditional: Option<AdditionalSnapshot>,
    mtdAdditional: Option<AdditionalSnapshot>,
    ytdAdditional: Option<AdditionalSnapshot>)

  /** A KPI row without `isCurrency` and `notes`. */
  function Kpi(labelText: string, today: Cell, mtd: Cell, ytd: Cell): KPIMetric {
    KPIMetric(labelText, today, mtd, ytd, None, None)
  }

  function Currency(labelText: string, today: Cell, mtd: Cell, ytd: Cell): KPIMetric {
    KPIMetric(labelText, today, mtd, ytd, Some(true), None)
  }

  function GscRow(labelText: string): KPIMetric {
    KPIMetric(labelText, Text("---"), Text("---"), Text("---"), None, Some("Requires GSC API"))
  }

  /** `snapshot?.field || 0`: the field when the snapshot is there and the field is truthy, else 0. */
  function Live<T>(snapshot: Option<T>, field: T -> Num): (c: Cell)
    ensures c.Number? && c.n.Finite?
    ensures snapshot.None? ==> c == Int(0)
    ensures snapshot.Some? && Truthy(field(snapshot.value)) ==> c == Number(field(snapshot.value))
    ensures snapshot.Some? && !Truthy(field(snapshot.value)) ==> c == Int(0)
  {
    Number(OrZero(snapshot.Map(field).GetOr(NaN)))
  }

  /** `a?.bounceRate ? `${(a.bounceRate * 100).toFixed(1)}%` : '0%'`. */
  function BounceCell(a: Option<AdditionalSnapshot>): (c: Cell)
    ensures c.PercentText? || c == Text("0%")
    ensures c.PercentText? <==> a.Some? && Truthy(a.value.bounceRate)
    ensures c.PercentText? ==> c.ratio == a.value.bounceRate.r
  {
    if a.Some? && Truthy(a.value.bounceRate) then PercentText(a.value.bounceRate.r) else Text("0%")
  }

  /** `m?.avgDuration ? `${Math.round(m.avgDuration)}s` : '0s'`. */
  function DurationCell(m: Option<MetricSnapshot>): (c: Cell)
    ensures c.SecondsText? || c == Text("0s")
    ensures c.SecondsText? <==> m.Some? && Truthy(m.value.avgDuration)
    ensures c.SecondsText? ==> c.secs == m.value.avgDuration.r
  {
    if m.Some? && Truthy(m.value.avgDuration) then SecondsText(m.value.avgDuration.r) else Text("0s")
  }

  function ActiveUsers(s: MetricSnapshot): Num { s.activeUsers }
  function PageViewCount(s: MetricSnapshot): Num { s.pageViews }
  function Sessions(s: MetricSnapshot): Num { s.sessions }
  function NewUsers(a: AdditionalSnapshot): Num { a.newUsers }
  function EventCount(a: AdditionalSnapshot): Num { a.eventCount }
  function Conversions(a: AdditionalSnapshot): Num { a.conversions }

  /** The growth funnel: two live rows, then the CRM placeholders. */
  function GrowthFunnel(r: FetchResults): seq<KPIMetric> {
    [
      Kpi("Website Visits",
        Live(r.todayData, ActiveUsers), Live(r.mtdData, ActiveUsers), Live(r.ytdData, ActiveUsers)),
      Kpi("Job Views",
        Live(r.todayData, PageViewCount), Live(r.mtdData, PageViewCount), Live(r.ytdData, PageViewCount))
    ] + FunnelPlaceholders
  }

  const FunnelPlaceholders: seq<KPIMetric> := [
    Kpi("Applications", Int(0), Int(12), Int(150)),
    Kpi("Shortlisted", Int(0), Int(4), Int(45)),
    Kpi("Interviews", Int(0), Int(2), Int(30)),
    Kpi("Offers", Int(0), Int(1), Int(12)),
    Kpi("Hires / Joins", Int(0), Int(1), Int(10))
  ]

  const BusinessMetrics: seq<KPIMetric> := [
    Kpi("Total Leads", Int(2), Int(45), Int(320)),
    Kpi("Employer Leads", Int(0), Int(5), Int(40)),
    Kpi("Training Leads", Int(2), Int(40), Int(280)),
    Currency("Monthly Revenue", Text("---"), Int(5000), Int(45000)),
    Currency("CPA", Text("---"), Int(25), Int(28)),
    Currency("Avg Revenue per Employer", Text("---"), Int(1200), Int(1500)),
    Kpi("Marketing ROI", Text("---"), Text("3.2x"), Text("4.0x"))
  ]

  const JobPortalMetrics: seq<KPIMetric> := [
    Kpi("Total Live Jobs", Int(50), Int(50), Int(50)),
    Kpi("Jobs Added", Int(1), Int(10), Int(85)),
    Kpi("Applications Received", Int(5), Int(120), Int(1500)),
    Kpi("Applications per Job", Number(Finite(0.1)), Number(Finite(2.4)), Int(30)),
    Kpi("Conversion Rate", Text("1%"), Text("2.5%"), Text("3.1%"))
  ]

  const CandidateMetrics: seq<KPIMetric> := [
    Kpi("Total Candidates", Text("---"), Text("---"), Int(5400)),
    Kpi("New Registrations", Int(8), Int(240), Int(2100))
  ]

  const EmployerMetrics: seq<KPIMetric> := [
    Kpi("Licensed Employers", Int(0), Int(2), Int(15)),
    Kpi("Jobs per Employer", Text("---"), Int(3), Number(Finite(4.5)))
  ]

  const GscPlaceholders: seq<KPIMetric> := [
    GscRow("Total Clicks (GSC)"),
    GscRow("Impressions (GSC)"),
    GscRow("CTR %")
  ]

  /** Website performance: the Search Console placeholders, then seven live rows. */
  function WebsitePerformance(r: FetchResults): seq<KPIMetric> {
    GscPlaceholders + [
      Kpi("Total Users",
        Live(r.todayData, ActiveUsers), Live(r.mtdData, ActiveUsers), Live(r.ytdData, ActiveUsers)),
      Kpi("Sessions", Live(r.todayData, Sessions), Live(r.mtdData, Sessions), Live(r.ytdData, Sessions)),
      Kpi("New Users",
        Live(r.todayAdditional, NewUsers), Live(r.mtdAdditional, NewUsers), Live(r.ytdAdditional, NewUsers)),
      Kpi("Bounce Rate", BounceCell(r.todayAdditional), BounceCell(r.mtdAdditional), BounceCell(r.ytdAdditional)),
      Kpi("Avg Session Duration", DurationCell(r.todayData), DurationCell(r.mtdData), DurationCell(r.ytdData)),
      Kpi("Total Events",
        Live(r.todayAdditional, EventCount), Live(r.mtdAdditional, EventCount), Live(r.ytdAdditional, EventCount)),
      Kpi("Conversions",
        Live(r.todayAdditional, Conversions), Live(r.mtdAdditional, Conversions), Live(r.ytdAdditional, Conversions))
    ]
  }

  /** The `dashboardData` object literal. */
  function BuildDashboardData(r: FetchResults): (d: DashboardData)
    ensures |d.growthFunnel| == 7 && |d.businessMetrics| == 7 && |d.jobPortalMetrics| == 5
    ensures |d.candidateMetrics| == 2 && |d.employerMetrics| == 2 && |d.websitePerformance| == 10
    ensures d.trafficSources == r.trafficSources && d.topPages == r.topPages && d.topJobPages == r.topJobPages
    ensures d.pageViewsByCategory == Some(r.pageViewsByCategory)
  {
    DashboardData(
      GrowthFunnel(r),
      BusinessMetrics,
      JobPortalMetrics,
      CandidateMetrics,
      EmployerMetrics,
      WebsitePerformance(r),
      r.trafficSources,
      r.topPages,
      r.topJobPages,
      // `pageViewsByCategory || []`: the fetcher always resolves to an array, which is truthy
      Some(r.pageViewsByCategory))
  }

  /** The labels of a section, in order. */
  function Labels(section: seq<KPIMetric>): (ls: seq<string>)
    ensures |ls| == |section|
  {
    seq(|section|, i requires 0 <= i < |section| => section[i].labelText)
  }

  /** Every section carries the same labels in the same order, whatever the queries returned. */
  lemma SectionLabels(r: FetchResults)
    ensures var d := BuildDashboardData(r);
      && Labels(d.growthFunnel)
        == ["Website Visits", "Job Views", "Applications", "Shortlisted", "Interviews", "Offers", "Hires / Joins"]
      && Labels(d.businessMetrics) == ["Total Leads", "Employer Leads", "Training Leads", "Monthly Revenue", "CPA",
        "Avg Revenue per Employer", "Marketing ROI"]
      && Labels(d.jobPortalMetrics) == ["Total Live Jobs", "Jobs Added", "Applications Received",
        "Applications per Job", "Conversion Rate"]
      && Labels(d.candidateMetrics) == ["Total Candidates", "New Registrations"]
      && Labels(d.employerMetrics) == ["Licensed Employers", "Jobs per Employer"]
      && Labels(d.websitePerformance) == ["Total Clicks (GSC)", "Impressions (GSC)", "CTR %", "Total Users",
        "Sessions", "New Users", "Bounce Rate", "Avg Session Duration", "Total Events", "Conversions"]
  {
    var d := BuildDashboardData(r);
    assert Labels(d.growthFunnel)[2..] == Labels(FunnelPlaceholders);
    assert Labels(d.websitePerformance)[..3] == Labels(GscPlaceholders);
  }

  /** The placeholder rows do not depend on anything the queries returned. */
  lemma PlaceholdersAreConstant(r1: FetchResults, r2: FetchResults)
    ensures var (d1, d2) := (BuildDashboardData(r1), BuildDashboardData(r2));
      && d1.growthFunnel[2..] == d2.growthFunnel[2..]
      && d1.businessMetrics == d2.businessMetrics
      && d1.jobPortalMetrics == d2.jobPortalMetrics
      && d1.candidateMetrics == d2.candidateMetrics
      && d1.employerMetrics == d2.employerMetrics
      && d1.websitePerformance[..3] == d2.websitePerformance[..3]
  {
    var (d1, d2) := (BuildDashboardData(r1), BuildDashboardData(r2));
    assert d1.growthFunnel[2..] == FunnelPlaceholders == d2.growthFunnel[2..];
    assert d1.websitePerformance[..3] == GscPlaceholders == d2.websitePerformance[..3];
  }

  /** A cell that is not the number NaN (`JSON.stringify` would send it as null). */
  predicate NotNaN(c: Cell) {
    c != Number(NaN)
  }

  predicate NoNaNRow(m: KPIMetric) {
    NotNaN(m.today) && NotNaN(m.mtd) && NotNaN(m.ytd)
  }

  predicate NoNaNSection(section: seq<KPIMetric>) {
    forall i :: 0 <= i < |section| ==> NoNaNRow(section[i])
  }

  lemma NoNaNConcat(a: seq<KPIMetric>, b: seq<KPIMetric>)
    requires NoNaNSection(a) && NoNaNSection(b)
    ensures NoNaNSection(a + b)
  {
  }

  lemma PlaceholdersNoNaN()
    ensures NoNaNSection(FunnelPlaceholders) && NoNaNSection(GscPlaceholders)
    ensures NoNaNSection(BusinessMetrics) && NoNaNSection(JobPortalMetrics)
    ensures NoNaNSection(CandidateMetrics) && NoNaNSection(EmployerMetrics)
  {
    FunnelAndGscNoNaN();
    BusinessAndJobsNoNaN();
    CandidatesAndEmployersNoNaN();
  }

  lemma FunnelAndGscNoNaN()
    ensures NoNaNSection(FunnelPlaceholders) && NoNaNSection(GscPlaceholders)
  {
  }

  lemma BusinessAndJobsNoNaN()
    ensures NoNaNSection(BusinessMetrics) && NoNaNSection(JobPortalMetrics)
  {
    assert NoNaNSection(BusinessMetrics);
  }

  lemma CandidatesAndEmployersNoNaN()
    ensures NoNaNSection(CandidateMetrics) && NoNaNSection(EmployerMetrics)
  {
  }

  lemma LiveRowsNoNaN(r: FetchResults)
    ensures NoNaNSection(GrowthFunnel(r)[..2]) && NoNaNSection(WebsitePerformance(r)[3..])
  {
  }

  /**
   * No KPI cell of the report is NaN: every live count passes through `|| 0`,
   * which turns NaN into 0, and the rates are rendered as text.
   */
  lemma NoNaNCells(r: FetchResults)
    ensures var d := BuildDashboardData(r);
      && NoNaNSection(d.growthFunnel) && NoNaNSection(d.businessMetrics) && NoNaNSection(d.jobPortalMetrics)
      && NoNaNSection(d.candidateMetrics) && NoNaNSection(d.employerMetrics) && NoNaNSection(d.websitePerformance)
  {
    PlaceholdersNoNaN();
    LiveRowsNoNaN(r);
    assert GrowthFunnel(r) == GrowthFunnel(r)[..2] + FunnelPlaceholders;
    NoNaNConcat(GrowthFunnel(r)[..2], FunnelPlaceholders);
    assert WebsitePerformance(r) == GscPlaceholders + WebsitePerformance(r)[3..];
    NoNaNConcat(GscPlaceholders, WebsitePerformance(r)[3..]);
  }

  /** The results when every query threw: no snapshots and empty lists. */
  const AllFailed: FetchResults := FetchResults(None, None, None, [], [], [], [], None, None, None)

  /**
   * When every query fails the report still has its full shape: every live count
   * is 0, the bounce rate is '0%', the duration '0s', and the lists are empty.
   */
  lemma AllFailedReport()
    ensures var d := BuildDashboardData(AllFailed);
      && d.growthFunnel[0] == Kpi("Website Visits", Int(0), Int(0), Int(0))
      && d.growthFunnel[1] == Kpi("Job Views", Int(0), Int(0), Int(0))
      && d.websitePerformance[3..] == [
        Kpi("Total Users", Int(0), Int(0), Int(0)),
        Kpi("Sessions", Int(0), Int(0), Int(0)),
        Kpi("New Users", Int(0), Int(0), Int(0)),
        Kpi("Bounce Rate", Text("0%"), Text("0%"), Text("0%")),
        Kpi("Avg Session Duration", Text("0s"), Text("0s"), Text("0s")),
        Kpi("Total Events", Int(0), Int(0), Int(0)),
        Kpi("Conversions", Int(0), Int(0), Int(0))]
      && d.trafficSources == [] && d.topPages == [] && d.topJobPages == []
      && d.pageViewsByCategory == Some([])
  {
  }

  /** The three value columns of a KPI row. */
  datatype Period = Today | MonthToDate | YearToDate

  function CellOf(m: KPIMetric, p: Period): Cell {
    match p
    case Today => m.today
    case MonthToDate => m.mtd
    case YearToDate => m.ytd
  }

  /** The two snapshots the endpoint fetched for the window of one column. */
  function WindowSnapshots(r: FetchResults, p: Period): (Option<MetricSnapshot>, Option<AdditionalSnapshot>) {
    match p
    case Today => (r.todayData, r.todayAdditional)
    case MonthToDate => (r.mtdData, r.mtdAdditional)
    case YearToDate => (r.ytdData, r.ytdAdditional)
  }

  /** Two sections with the same labels and the same cells in column p. */
  predicate SameColumn(a: seq<KPIMetric>, b: seq<KPIMetric>, p: Period) {
    |a| == |b| && forall k :: 0 <= k < |a| ==> a[k].labelText == b[k].labelText && CellOf(a[k], p) == CellOf(b[k], p)
  }

  /**
   * Each column reads only the snapshots of its own window: two sets of fetch
   * results that agree on the snapshots of a window give the same cells in that
   * window's column of every row of every section.
   */
  lemma LiveCellsReadTheirWindow(r1: FetchResults, r2: FetchResults, p: Period)
    requires WindowSnapshots(r1, p) == WindowSnapshots(r2, p)
    ensures var (d1, d2) := (BuildDashboardData(r1), BuildDashboardData(r2));
      && SameColumn(d1.growthFunnel, d2.growthFunnel, p)
      && SameColumn(d1.businessMetrics, d2.businessMetrics, p)
      && SameColumn(d1.jobPortalMetrics, d2.jobPortalMetrics, p)
      && SameColumn(d1.candidateMetrics, d2.candidateMetrics, p)
      && SameColumn(d1.employerMetrics, d2.employerMetrics, p)
      && SameColumn(d1.websitePerformance, d2.websitePerformance, p)
  {
    var (d1, d2) := (BuildDashboardData(r1), BuildDashboardData(r2));
    PlaceholdersAreConstant(r1, r2);
    assert SameColumn(d1.growthFunnel, d2.growthFunnel, p) by {
      forall k | 0 <= k < 7
        ensures d1.growthFunnel[k].labelText == d2.growthFunnel[k].labelText
        ensures CellOf(d1.growthFunnel[k], p) == CellOf(d2.growthFunnel[k], p)
      {
        if k >= 2 {
          assert d1.growthFunnel[k] == d1.growthFunnel[2..][k - 2];
          assert d2.growthFunnel[k] == d2.growthFunnel[2..][k - 2];
        }
      }
    }
    assert SameColumn(d1.websitePerformance, d2.websitePerformance, p) by {
      forall k | 0 <= k < 10
        ensures d1.websitePerformance[k].labelText == d2.websitePerformance[k].labelText
        ensures CellOf(d1.websitePerformance[k], p) == CellOf(d2.websitePerformance[k], p)
      {
        if k < 3 {
          assert d1.websitePerformance[k] == d1.websitePerformance[..3][k];
          assert d2.websitePerformance[k] == d2.websitePerformance[..3][k];
        }
      }
    }
  }

  /**
   * The "Total Users" row repeats the "Website Visits" row, and the first funnel
   * row holds the active users of each window, or 0.
   */
  lemma TotalUsersAreWebsiteVisits(r: FetchResults)
    ensures var d := BuildDashboardData(r);
      && d.growthFunnel[0].today == Live(r.todayData, ActiveUsers)
      && d.growthFunnel[0].mtd == Live(r.mtdData, ActiveUsers)
      && d.growthFunnel[0].ytd == Live(r.ytdData, ActiveUsers)
      && (d.websitePerformance[3].today, d.websitePerformance[3].mtd, d.websitePerformance[3].ytd)
        == (d.growthFunnel[0].today, d.growthFunnel[0].mtd, d.growthFunnel[0].ytd)
  {
  }
}
