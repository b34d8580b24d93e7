/**
 * buildReportArtifacts: flattens the dashboard report into one list of unified
 * rows and a workbook of named sheets (one per non-empty KPI section and list,
 * then 'All Metrics' and 'Overview').
 */
module ReportExport {
  import opened Js
  import opened DashboardTypes
  import opened ExportValues

  /** One row of the 'All Metrics' sheet. */
  datatype UnifiedRow = UnifiedRow(section: string, metric: string, today: Cell, mtd: Cell, ytd: Cell, notes: string)

  /** A row object handed to `json_to_sheet`: its keys and values in key order. */
  type Record = seq<(string, Cell)>

  /** A worksheet appended to the workbook under a name. */
  datatype NamedSheet = NamedSheet(name: string, rows: seq<Record>)

  /** The workbook `book_new` creates; `book_append_sheet` is its one operation used here. */
  class Workbook {
    var sheets: seq<NamedSheet>

    constructor()
      ensures sheets == []
    {
      sheets := [];
    }

    method AppendSheet(rows: seq<Record>, name: string)
      modifies this
      ensures sheets == old(sheets) + [NamedSheet(name, rows)]
    {
      sheets := sheets + [NamedSheet(name, rows)];
    }
  }

  function Names(sheets: seq<NamedSheet>): (names: seq<string>)
    ensures |names| == |sheets|
    ensures forall i :: 0 <= i < |sheets| ==> names[i] == sheets[i].name
  {
    seq(|sheets|, i requires 0 <= i < |sheets| => sheets[i].name)
  }

  /** A KPI section of the report with its title. */
  datatype SectionConfig = SectionConfig(title: string, metrics: seq<KPIMetric>)

  const SectionTitles: seq<string> := ["Growth Funnel", "Business Metrics", "Job Portal Metrics",
    "Candidate Metrics", "Employer Metrics", "Website Performance"]

  /** `sectionConfigs`, in its order. */
  function SectionConfigs(d: DashboardData): (cs: seq<SectionConfig>)
    ensures |cs| == 6 && forall k :: 0 <= k < 6 ==> cs[k].title == SectionTitles[k]
  {
    [
      SectionConfig("Growth Funnel", d.growthFunnel),
      SectionConfig("Business Metrics", d.businessMetrics),
      SectionConfig("Job Portal Metrics", d.jobPortalMetrics),
      SectionConfig("Candidate Metrics", d.candidateMetrics),
      SectionConfig("Employer Metrics", d.employerMetrics),
      SectionConfig("Website Performance", d.websitePerformance)
    ]
  }

  /** The unified row of one KPI metric (`formatted`). */
  function MetricRow(title: string, m: KPIMetric): UnifiedRow {
    UnifiedRow(title, m.labelText, FormatExportValue(m.today), FormatExportValue(m.mtd), FormatExportValue(m.ytd),
      m.notes.GetOr(""))
  }

  /** The row of a section's own sheet: the unified row without its section. */
  function MetricRecord(row: UnifiedRow): Record {
    [("Metric", Text(row.metric)), ("Today", row.today), ("MTD", row.mtd), ("YTD", row.ytd), ("Notes", Text(row.notes))]
  }

  function SectionRows(title: string, metrics: seq<KPIMetric>): (rows: seq<UnifiedRow>)
    ensures |rows| == |metrics|
  {
    seq(|metrics|, i requires 0 <= i < |metrics| => MetricRow(title, metrics[i]))
  }

  function SectionSheet(rows: seq<UnifiedRow>): (sheet: seq<Record>)
    ensures |sheet| == |rows|
  {
    seq(|rows|, i requires 0 <= i < |rows| => MetricRecord(rows[i]))
  }

  /** The unified rows of the KPI sections, section by section. */
  function KpiRows(cs: seq<SectionConfig>): seq<UnifiedRow> {
    if cs == [] then []
    else
      var last := cs[|cs| - 1];
      KpiRows(cs[..|cs| - 1]) + (if |last.metrics| == 0 then [] else SectionRows(last.title, last.metrics))
  }

  /** The sheet of one KPI section, named by its sanitised title; none when it has no metrics. */
  function SectionSheets(c: SectionConfig): seq<NamedSheet> {
    if |c.metrics| == 0 then []
    else [NamedSheet(SanitizeSheetName(c.title), SectionSheet(SectionRows(c.title, c.metrics)))]
  }

  /** The sheets of the non-empty KPI sections, in section order. */
  function KpiSheets(cs: seq<SectionConfig>): seq<NamedSheet> {
    if cs == [] then [] else KpiSheets(cs[..|cs| - 1]) + SectionSheets(cs[|cs| - 1])
  }

  /** The number of KPI metrics of the sections: the `reduce` of the overview. */
  function KpiCount(cs: seq<SectionConfig>): nat {
    if cs == [] then 0 else KpiCount(cs[..|cs| - 1]) + |cs[|cs| - 1].metrics|
  }

  /** A breakdown list as the export sees it: its section title, sheet columns and entries. */
  datatype ListConfig = ListConfig(title: string, keyName: string, valueName: string, entries: seq<(string, Num)>)

  const ListTitles: seq<string> := ["Traffic Sources", "Top Pages", "Top Job Pages", "Page Categories"]

  function ListConfigs(d: DashboardData): (ls: seq<ListConfig>)
    ensures |ls| == 4 && forall k :: 0 <= k < 4 ==> ls[k].title == ListTitles[k]
  {
    var sources := d.trafficSources;
    var pages := d.topPages;
    var jobPages := d.topJobPages;
    // `pageViewsByCategory?.length` is falsy when the field is absent
    var categories := d.pageViewsByCategory.GetOr([]);
    [
      ListConfig("Traffic Sources", "Source", "Sessions",
        seq(|sources|, i requires 0 <= i < |sources| => (sources[i].name, sources[i].value))),
      ListConfig("Top Pages", "Page", "Views",
        seq(|pages|, i requires 0 <= i < |pages| => (pages[i].pageName, pages[i].views))),
      ListConfig("Top Job Pages", "Page", "Views",
        seq(|jobPages|, i requires 0 <= i < |jobPages| => (jobPages[i].pageName, jobPages[i].views))),
      ListConfig("Page Categories", "Category", "Views",
        seq(|categories|, i requires 0 <= i < |categories| => (categories[i].name, categories[i].val)))
    ]
  }

  /** One unified row per entry: Today is the entry's number, the other columns are ''. */
  function ListRows(l: ListConfig): (rows: seq<UnifiedRow>)
    ensures |rows| == |l.entries|
  {
    seq(|l.entries|, i requires 0 <= i < |l.entries| =>
      UnifiedRow(l.title, l.entries[i].0, Number(l.entries[i].1), Text(""), Text(""), ""))
  }

  function ListSheet(l: ListConfig): (sheet: seq<Record>)
    ensures |sheet| == |l.entries|
  {
    seq(|l.entries|, i requires 0 <= i < |l.entries| =>
      [(l.keyName, Text(l.entries[i].0)), (l.valueName, Number(l.entries[i].1))])
  }

  /** The list's sheet under its title, when the list is not empty. */
  function ListSheets(l: ListConfig): seq<NamedSheet> {
    if |l.entries| == 0 then [] else [NamedSheet(l.title, ListSheet(l))]
  }

  /** The rows of the four lists, list after list. */
  function ListsRows(ls: seq<ListConfig>): seq<UnifiedRow>
    requires |ls| == 4
  {
    ListRows(ls[0]) + ListRows(ls[1]) + ListRows(ls[2]) + ListRows(ls[3])
  }

  /** The sheets of the non-empty lists, in list order. */
  function ListsSheets(ls: seq<ListConfig>): seq<NamedSheet>
    requires |ls| == 4
  {
    ListSheets(ls[0]) + ListSheets(ls[1]) + ListSheets(ls[2]) + ListSheets(ls[3])
  }

  const InfoRow: UnifiedRow := UnifiedRow("Info", "No data available", Text(""), Text(""), Text(""), "")

  /** The unified rows of the sections and lists: KPI rows, then list rows; the Info row when there are none. */
  function FlattenRows(cs: seq<SectionConfig>, ls: seq<ListConfig>): seq<UnifiedRow>
    requires |ls| == 4
  {
    var all := KpiRows(cs) + ListsRows(ls);
    if all == [] then [InfoRow] else all
  }

  /** The unified rows of the report. */
  function UnifiedRows(d: DashboardData): seq<UnifiedRow> {
    FlattenRows(SectionConfigs(d), ListConfigs(d))
  }

  function UnifiedRecord(row: UnifiedRow): Record {
    [("Section", Text(row.section)), ("Metric", Text(row.metric)), ("Today", row.today), ("MTD", row.mtd),
      ("YTD", row.ytd), ("Notes", Text(row.notes))]
  }

  function UnifiedSheet(rows: seq<UnifiedRow>): (sheet: seq<Record>)
    ensures |sheet| == |rows|
  {
    seq(|rows|, i requires 0 <= i < |rows| => UnifiedRecord(rows[i]))
  }

  /** `filter || 'Not Applied'`. */
  function FilterText(filter: string): string {
    if filter == "" then "Not Applied" else filter
  }

  /**
   * The 'Overview' sheet: when the report was generated (the caller's clock and
   * locale render it), both date filters, and the number of KPI metrics.
   */
  function OverviewSheet(generatedAt: string, startFilter: string, endFilter: string, total: nat): seq<Record> {
    [
      [("Metric", Text("Report Generated At")), ("Value", Text(generatedAt))],
      [("Metric", Text("Start Date Filter")), ("Value", Text(FilterText(startFilter)))],
      [("Metric", Text("End Date Filter")), ("Value", Text(FilterText(endFilter)))],
      [("Metric", Text("Total KPI Metrics")), ("Value", Int(total))]
    ]
  }

  /** The sheets appended for the sections and lists, in order: their own, 'All Metrics', 'Overview'. */
  function AllSheets(cs: seq<SectionConfig>, ls: seq<ListConfig>, startFilter: string, endFilter: string,
    generatedAt: string): seq<NamedSheet>
    requires |ls| == 4
  {
    KpiSheets(cs) + ListsSheets(ls)
      + [NamedSheet("All Metrics", UnifiedSheet(FlattenRows(cs, ls))),
         NamedSheet("Overview", OverviewSheet(generatedAt, startFilter, endFilter, KpiCount(cs)))]
  }

  /** Every sheet of the report's workbook, in the order they are appended. */
  function ReportSheets(d: DashboardData, startFilter: string, endFilter: string, generatedAt: string): seq<NamedSheet> {
    AllSheets(SectionConfigs(d), ListConfigs(d), startFilter, endFilter, generatedAt)
  }

  /** The `sectionConfigs.forEach` body for one non-empty section: its rows, pushed as they are formatted. */
  method FlattenSection(title: string, metrics: seq<KPIMetric>, unified: seq<UnifiedRow>)
    returns (unifiedAfter: seq<UnifiedRow>, sheet: seq<Record>)
    ensures unifiedAfter == unified + SectionRows(title, metrics)
    ensures sheet == SectionSheet(SectionRows(title, metrics))
  {
    unifiedAfter := unified;
    sheet := [];
    var i := 0;
    while i < |metrics|
      invariant 0 <= i <= |metrics|
      invariant unifiedAfter == unified + SectionRows(title, metrics)[..i]
      invariant sheet == SectionSheet(SectionRows(title, metrics))[..i]
    {
      var formatted := MetricRow(title, metrics[i]);
      unifiedAfter := unifiedAfter + [formatted];
      sheet := sheet + [MetricRecord(formatted)];
      i := i + 1;
    }
  }

  /**
   * One list's `if (list?.length)` block: a unified row per entry, pushed in
   * order, and the list's sheet appended under its title.
   */
  method AppendList(workbook: Workbook, l: ListConfig, unified: seq<UnifiedRow>) returns (unifiedAfter: seq<UnifiedRow>)
    modifies workbook
    ensures unifiedAfter == unified + ListRows(l)
    ensures workbook.sheets == old(workbook.sheets) + ListSheets(l)
  {
    unifiedAfter := unified;
    if |l.entries| == 0 {
      return;
    }
    var i := 0;
    while i < |l.entries|
      invariant 0 <= i <= |l.entries|
      invariant unifiedAfter == unified + ListRows(l)[..i]
    {
      unifiedAfter := unifiedAfter + [UnifiedRow(l.title, l.entries[i].0, Number(l.entries[i].1), Text(""), Text(""), "")];
      i := i + 1;
    }
    workbook.AppendSheet(ListSheet(l), l.title);
  }

  /** One more section adds its rows, its sheet when it has metrics, and its size. */
  lemma KpiStep(cs: seq<SectionConfig>, n: nat)
    requires 0 < n <= |cs|
    ensures KpiRows(cs[..n]) == KpiRows(cs[..n - 1]) + SectionRows(cs[n - 1].title, cs[n - 1].metrics)
    ensures KpiCount(cs[..n]) == KpiCount(cs[..n - 1]) + |cs[n - 1].metrics|
  {
    assert cs[..n][..n - 1] == cs[..n - 1];
  }

  lemma KpiSheetStep(cs: seq<SectionConfig>, n: nat)
    requires 0 < n <= |cs|
    ensures KpiSheets(cs[..n]) == KpiSheets(cs[..n - 1]) + SectionSheets(cs[n - 1])
  {
    assert cs[..n][..n - 1] == cs[..n - 1];
  }

  /** Appending one more section's rows and sheets keeps the loop of `AppendSections` on track. */
  lemma SectionsStep(cs: seq<SectionConfig>, s: nat, sheets0: seq<NamedSheet>,
                     unified: seq<UnifiedRow>, unifiedAfter: seq<UnifiedRow>,
                     sheets: seq<NamedSheet>, sheetsAfter: seq<NamedSheet>)
    requires s < |cs|
    requires unified == KpiRows(cs[..s]) && sheets == sheets0 + KpiSheets(cs[..s])
    requires unifiedAfter == unified + SectionRows(cs[s].title, cs[s].metrics)
    requires sheetsAfter == sheets + SectionSheets(cs[s])
    ensures unifiedAfter == KpiRows(cs[..s + 1]) && sheetsAfter == sheets0 + KpiSheets(cs[..s + 1])
  {
    KpiStep(cs, s + 1);
    KpiSheetStep(cs, s + 1);
  }

  /** One section of the `sectionConfigs.forEach`: skipped when it has no metrics. */
  method AppendSection(workbook: Workbook, section: SectionConfig, unified: seq<UnifiedRow>)
    returns (unifiedAfter: seq<UnifiedRow>)
    modifies workbook
    ensures unifiedAfter == unified + SectionRows(section.title, section.metrics)
    ensures workbook.sheets == old(workbook.sheets) + SectionSheets(section)
  {
    unifiedAfter := unified;
    if |section.metrics| != 0 {
      var sheet;
      unifiedAfter, sheet := FlattenSection(section.title, section.metrics, unified);
      workbook.AppendSheet(sheet, SanitizeSheetName(section.title));
    }
  }

  /** The `sectionConfigs.forEach`: every non-empty section's rows and sheet, in section order. */
  method AppendSections(workbook: Workbook, sectionConfigs: seq<SectionConfig>) returns (unified: seq<UnifiedRow>)
    modifies workbook
    ensures unified == KpiRows(sectionConfigs)
    ensures workbook.sheets == old(workbook.sheets) + KpiSheets(sectionConfigs)
  {
    unified := [];
    ghost var sheets0 := workbook.sheets;
    var s := 0;
    while s < |sectionConfigs|
      invariant 0 <= s <= |sectionConfigs|
      invariant unified == KpiRows(sectionConfigs[..s])
      invariant workbook.sheets == sheets0 + KpiSheets(sectionConfigs[..s])
    {
      ghost var unifiedBefore, sheetsBefore := unified, workbook.sheets;
      unified := AppendSection(workbook, sectionConfigs[s], unified);
      SectionsStep(sectionConfigs, s, sheets0, unifiedBefore, unified, sheetsBefore, workbook.sheets);
      s := s + 1;
    }
    assert sectionConfigs[..s] == sectionConfigs;
  }

  /** `sectionConfigs.reduce((sum, section) => sum + (section.metrics?.length || 0), 0)`. */
  method CountKpiMetrics(sectionConfigs: seq<SectionConfig>) returns (total: nat)
    ensures total == KpiCount(sectionConfigs)
  {
    total := 0;
    var j := 0;
    while j < |sectionConfigs|
      invariant 0 <= j <= |sectionConfigs|
      invariant total == KpiCount(sectionConfigs[..j])
    {
      KpiStep(sectionConfigs, j + 1);
      total := total + |sectionConfigs[j].metrics|;
      j := j + 1;
    }
    assert sectionConfigs[..j] == sectionConfigs;
  }

  /** The four list blocks, in order. */
  method AppendLists(workbook: Workbook, lists: seq<ListConfig>, unified: seq<UnifiedRow>)
    returns (unifiedAfter: seq<UnifiedRow>)
    requires |lists| == 4
    modifies workbook
    ensures unifiedAfter == unified + ListsRows(lists)
    ensures workbook.sheets == old(workbook.sheets) + ListsSheets(lists)
  {
    ghost var sheets0 := workbook.sheets;
    unifiedAfter := AppendList(workbook, lists[0], unified);
    ghost var sheets1 := workbook.sheets;
    unifiedAfter := AppendList(workbook, lists[1], unifiedAfter);
    ghost var sheets2 := workbook.sheets;
    unifiedAfter := AppendList(workbook, lists[2], unifiedAfter);
    ghost var sheets3 := workbook.sheets;
    unifiedAfter := AppendList(workbook, lists[3], unifiedAfter);
    assert workbook.sheets == sheets0 + ListsSheets(lists) by {
      assert workbook.sheets == sheets3 + ListSheets(lists[3]);
      assert sheets3 == sheets2 + ListSheets(lists[2]);
      assert sheets2 == sheets1 + ListSheets(lists[1]);
      assert sheets1 == sheets0 + ListSheets(lists[0]);
    }
  }

  /** The end of buildReportArtifacts: the Info row when needed, then 'All Metrics' and 'Overview'. */
  method AppendSummary(workbook: Workbook, cs: seq<SectionConfig>, ls: seq<ListConfig>, unified: seq<UnifiedRow>,
    startFilter: string, endFilter: string, generatedAt: string) returns (unifiedRows: seq<UnifiedRow>)
    requires |ls| == 4 && unified == KpiRows(cs) + ListsRows(ls)
    modifies workbook
    ensures unifiedRows == FlattenRows(cs, ls)
    ensures workbook.sheets == old(workbook.sheets)
      + [NamedSheet("All Metrics", UnifiedSheet(FlattenRows(cs, ls))),
         NamedSheet("Overview", OverviewSheet(generatedAt, startFilter, endFilter, KpiCount(cs)))]
  {
    unifiedRows := unified;
    if |unifiedRows| == 0 {
      unifiedRows := unifiedRows + [InfoRow];
    }
    assert unifiedRows == FlattenRows(cs, ls);
    ghost var sheets0 := workbook.sheets;
    var allMetrics := UnifiedSheet(unifiedRows);
    workbook.AppendSheet(allMetrics, "All Metrics");
    var total := CountKpiMetrics(cs);
    var overview := OverviewSheet(generatedAt, startFilter, endFilter, total);
    workbook.AppendSheet(overview, "Overview");
    assert workbook.sheets == sheets0 + [NamedSheet("All Metrics", allMetrics), NamedSheet("Overview", overview)];
  }

  /** buildReportArtifacts, with the date filters and the generation time as inputs. */
  method BuildReportArtifacts(dashboard: DashboardData, startFilter: string, endFilter: string, generatedAt: string)
    returns (workbook: Workbook, unifiedRows: seq<UnifiedRow>)
    ensures fresh(workbook)
    ensures unifiedRows == UnifiedRows(dashboard)
    ensures workbook.sheets == ReportSheets(dashboard, startFilter, endFilter, generatedAt)
  {
    workbook := new Workbook();
    var sectionConfigs := SectionConfigs(dashboard);
    unifiedRows := AppendSections(workbook, sectionConfigs);
    ghost var kpi := workbook.sheets;
    assert kpi == KpiSheets(sectionConfigs);
    var lists := ListConfigs(dashboard);
    unifiedRows := AppendLists(workbook, lists, unifiedRows);
    ghost var kpiAndLists := workbook.sheets;
    assert kpiAndLists == kpi + ListsSheets(lists);
    unifiedRows := AppendSummary(workbook, sectionConfigs, lists, unifiedRows, startFilter, endFilter, generatedAt);
    ghost var summary := [NamedSheet("All Metrics", UnifiedSheet(FlattenRows(sectionConfigs, lists))),
      NamedSheet("Overview", OverviewSheet(generatedAt, startFilter, endFilter, KpiCount(sectionConfigs)))];
    assert workbook.sheets == kpiAndLists + summary;
    assert AllSheets(sectionConfigs, lists, startFilter, endFilter, generatedAt) == kpi + ListsSheets(lists) + summary;
  }
}
