/**
 * What buildReportArtifacts promises about its output: the unified rows come
 * section by section and list by list, the lists leave their month-to-date,
 * year-to-date and notes columns blank, an empty report is the one Info row, the
 * sheet names follow the fixed order and never repeat, and the overview counts
 * the KPI metrics.
 */
module ReportFacts {
  import opened Js
  import opened JsStrings
  import opened DashboardTypes
  import opened ExportValues
  import opened ReportExport
  import opened Response

  /** The sizes of the six KPI sections, in section order. */
  function SectionSizes(d: DashboardData): (sizes: seq<nat>)
    ensures |sizes| == 6
  {
    [|d.growthFunnel|, |d.businessMetrics|, |d.jobPortalMetrics|, |d.candidateMetrics|, |d.employerMetrics|,
      |d.websitePerformance|]
  }

  /** The sizes of the four lists, in list order (an absent category list has none). */
  function ListSizes(d: DashboardData): (sizes: seq<nat>)
    ensures |sizes| == 4
  {
    [|d.trafficSources|, |d.topPages|, |d.topJobPages|, |d.pageViewsByCategory.GetOr([])|]
  }

  function Sum(xs: seq<nat>): nat {
    if xs == [] then 0 else Sum(xs[..|xs| - 1]) + xs[|xs| - 1]
  }

  /** The titles whose size is not zero, in their order. */
  function Present(titles: seq<string>, sizes: seq<nat>): (r: seq<string>)
    requires |titles| == |sizes|
    ensures |r| <= |titles|
    ensures forall x :: x in r ==> x in titles
  {
    if titles == [] then []
    else
      var n := |titles| - 1;
      Present(titles[..n], sizes[..n]) + (if sizes[n] == 0 then [] else [titles[n]])
  }

  predicate Distinct(xs: seq<string>) {
    forall i, j :: 0 <= i < j < |xs| ==> xs[i] != xs[j]
  }

  lemma {:induction false} PresentDistinct(titles: seq<string>, sizes: seq<nat>)
    requires |titles| == |sizes| && Distinct(titles)
    ensures Distinct(Present(titles, sizes))
  {
    if titles != [] {
      var n := |titles| - 1;
      PresentDistinct(titles[..n], sizes[..n]);
      var before := Present(titles[..n], sizes[..n]);
      assert titles[n] !in titles[..n];
      assert titles[n] !in before;
    }
  }

  lemma DistinctConcat(a: seq<string>, b: seq<string>)
    requires Distinct(a) && Distinct(b) && forall x :: x in a ==> x !in b
    ensures Distinct(a + b)
  {
    forall i, j | 0 <= i < j < |a + b|
      ensures (a + b)[i] != (a + b)[j]
    {
      if j < |a| {
      } else if i < |a| {
        assert (a + b)[i] in a && (a + b)[j] == b[j - |a|];
      } else {
        assert (a + b)[i] == b[i - |a|] && (a + b)[j] == b[j - |a|];
      }
    }
  }

  lemma NamesAppend(a: seq<NamedSheet>, b: seq<NamedSheet>)
    ensures Names(a + b) == Names(a) + Names(b)
  {
  }

  lemma SumStep(xs: seq<nat>, n: nat)
    requires 0 < n <= |xs|
    ensures Sum(xs[..n]) == Sum(xs[..n - 1]) + xs[n - 1]
  {
    assert xs[..n][..n - 1] == xs[..n - 1];
  }

  lemma PresentStep(titles: seq<string>, sizes: seq<nat>, n: nat)
    requires |titles| == |sizes| && 0 < n <= |titles|
    ensures Present(titles[..n], sizes[..n])
      == Present(titles[..n - 1], sizes[..n - 1]) + (if sizes[n - 1] == 0 then [] else [titles[n - 1]])
  {
    assert titles[..n][..n - 1] == titles[..n - 1];
    assert sizes[..n][..n - 1] == sizes[..n - 1];
  }

  /** The KPI rows hold one row per metric of every section: their count is the overview's count. */
  lemma {:induction false} KpiRowsCount(cs: seq<SectionConfig>)
    ensures |KpiRows(cs)| == KpiCount(cs)
  {
    if cs != [] {
      KpiRowsCount(cs[..|cs| - 1]);
    }
  }

  /** Every KPI row carries the title of the section it was made from. */
  lemma {:induction false} KpiRowsSections(cs: seq<SectionConfig>)
    ensures forall r :: r in KpiRows(cs) ==> exists k :: 0 <= k < |cs| && r.section == cs[k].title
  {
    if cs != [] {
      var n := |cs| - 1;
      KpiRowsSections(cs[..n]);
      forall r | r in KpiRows(cs)
        ensures exists k :: 0 <= k < |cs| && r.section == cs[k].title
      {
        if r in KpiRows(cs[..n]) {
          var k :| 0 <= k < n && r.section == cs[..n][k].title;
          assert cs[..n][k] == cs[k];
        } else {
          assert r.section == cs[n].title;
        }
      }
    }
  }

  /** No section title is a list title, and neither is 'Info'. */
  lemma TitlesApart()
    ensures forall k :: 0 <= k < 6 ==> SectionTitles[k] !in ListTitles && SectionTitles[k] != "Info"
  {
  }

  /** The rows of the KPI sections are tagged with section titles, never with a list's title or 'Info'. */
  lemma KpiRowsTagged(d: DashboardData)
    ensures forall r :: r in KpiRows(SectionConfigs(d)) ==> r.section !in ListTitles && r.section != "Info"
  {
    var cs := SectionConfigs(d);
    KpiRowsSections(cs);
    TitlesApart();
    forall r | r in KpiRows(cs)
      ensures r.section !in ListTitles && r.section != "Info"
    {
      var k :| 0 <= k < |cs| && r.section == cs[k].title;
      assert cs[k].title == SectionTitles[k];
    }
  }

  /**
   * The KPI rows of the report are the rows of Growth Funnel, Business, Job
   * Portal, Candidate, Employer and Website Performance, in that order; an empty
   * section contributes none.
   */
  lemma KpiRowsOrder(d: DashboardData)
    ensures KpiRows(SectionConfigs(d))
      == SectionRows("Growth Funnel", d.growthFunnel)
       + SectionRows("Business Metrics", d.businessMetrics)
       + SectionRows("Job Portal Metrics", d.jobPortalMetrics)
       + SectionRows("Candidate Metrics", d.candidateMetrics)
       + SectionRows("Employer Metrics", d.employerMetrics)
       + SectionRows("Website Performance", d.websitePerformance)
  {
    var cs := SectionConfigs(d);
    assert cs[..0] == [];
    KpiStep(cs, 1);
    KpiStep(cs, 2);
    KpiStep(cs, 3);
    KpiStep(cs, 4);
    KpiStep(cs, 5);
    KpiStep(cs, 6);
    assert cs[..6] == cs;
  }

  /**
   * The unified rows: the KPI rows, then one row per traffic source, top page,
   * top job page and category, in that order; just the Info row when there is
   * nothing at all.
   */
  lemma UnifiedRowsOrder(d: DashboardData)
    ensures var ls := ListConfigs(d);
      var all := SectionRows("Growth Funnel", d.growthFunnel)
        + SectionRows("Business Metrics", d.businessMetrics)
        + SectionRows("Job Portal Metrics", d.jobPortalMetrics)
        + SectionRows("Candidate Metrics", d.candidateMetrics)
        + SectionRows("Employer Metrics", d.employerMetrics)
        + SectionRows("Website Performance", d.websitePerformance)
        + ListRows(ls[0]) + ListRows(ls[1]) + ListRows(ls[2]) + ListRows(ls[3]);
      UnifiedRows(d) == if all == [] then [InfoRow] else all
  {
    KpiRowsOrder(d);
  }

  /** A list row of the unified rows holds the entry's own number, and '' in its other three columns. */
  lemma ListRowsBlank(d: DashboardData)
    ensures forall r :: r in UnifiedRows(d) && r.section in ListTitles ==>
      r.today.Number? && r.mtd == Text("") && r.ytd == Text("") && r.notes == ""
  {
    var cs := SectionConfigs(d);
    var ls := ListConfigs(d);
    KpiRowsTagged(d);
    forall r | r in UnifiedRows(d) && r.section in ListTitles
      ensures r.today.Number? && r.mtd == Text("") && r.ytd == Text("") && r.notes == ""
    {
      assert r !in KpiRows(cs);
      assert r in ListRows(ls[0]) + ListRows(ls[1]) + ListRows(ls[2]) + ListRows(ls[3]);
    }
  }

  /** The number of rows of the four lists. */
  lemma ListsRowsCount(d: DashboardData)
    ensures |ListsRows(ListConfigs(d))| == Sum(ListSizes(d))
  {
    var s := ListSizes(d);
    assert s[..0] == [];
    SumStep(s, 1);
    SumStep(s, 2);
    SumStep(s, 3);
    SumStep(s, 4);
    assert s[..4] == s;
  }

  lemma KpiCountOfSix(cs: seq<SectionConfig>)
    requires |cs| == 6
    ensures KpiCount(cs) == |cs[0].metrics| + |cs[1].metrics| + |cs[2].metrics| + |cs[3].metrics| + |cs[4].metrics|
      + |cs[5].metrics|
  {
    assert cs[..0] == [];
    KpiStep(cs, 1);
    KpiStep(cs, 2);
    KpiStep(cs, 3);
    KpiStep(cs, 4);
    KpiStep(cs, 5);
    KpiStep(cs, 6);
    assert cs[..6] == cs;
  }

  lemma SectionSum(d: DashboardData)
    ensures Sum(SectionSizes(d)) == KpiCount(SectionConfigs(d))
  {
    SumOfSix(SectionSizes(d));
    KpiCountOfSix(SectionConfigs(d));
  }

  /**
   * There is one unified row per metric and list entry; when there are none,
   * there is exactly the one Info row.
   */
  lemma UnifiedRowCount(d: DashboardData)
    ensures var total := Sum(SectionSizes(d)) + Sum(ListSizes(d));
      && (total == 0 ==> UnifiedRows(d) == [InfoRow])
      && (total != 0 ==> |UnifiedRows(d)| == total && InfoRow !in UnifiedRows(d))
  {
    var cs := SectionConfigs(d);
    var ls := ListConfigs(d);
    KpiRowsCount(cs);
    SectionSum(d);
    ListsRowsCount(d);
    KpiRowsTagged(d);
    assert InfoRow !in ListRows(ls[0]) && InfoRow !in ListRows(ls[1]);
    assert InfoRow !in ListRows(ls[2]) && InfoRow !in ListRows(ls[3]);
  }

  /** The six section titles are already valid sheet names, so sanitising keeps them. */
  lemma SectionTitlesSanitized()
    ensures forall k :: 0 <= k < 6 ==> SanitizeSheetName(SectionTitles[k]) == SectionTitles[k]
  {
    forall k | 0 <= k < 6
      ensures SanitizeSheetName(SectionTitles[k]) == SectionTitles[k]
    {
      var t := SectionTitles[k];
      assert NoForbidden(t);
      SanitizeKeepsValidNames(t);
    }
  }

  /** The KPI sheets are named by the sanitised titles of the non-empty sections, in order. */
  lemma {:induction false} KpiSheetNames(cs: seq<SectionConfig>, titles: seq<string>, sizes: seq<nat>)
    requires |titles| == |sizes| == |cs|
    requires forall k :: 0 <= k < |cs| ==> titles[k] == SanitizeSheetName(cs[k].title) && sizes[k] == |cs[k].metrics|
    ensures Names(KpiSheets(cs)) == Present(titles, sizes)
  {
    if cs != [] {
      var n := |cs| - 1;
      KpiSheetNames(cs[..n], titles[..n], sizes[..n]);
      NamesAppend(KpiSheets(cs[..n]), SectionSheets(cs[n]));
    }
  }

  function Kept(title: string, size: nat): seq<string> {
    if size == 0 then [] else [title]
  }

  lemma PresentOfFour(titles: seq<string>, sizes: seq<nat>)
    requires |titles| == |sizes| == 4
    ensures Present(titles, sizes)
      == Kept(titles[0], sizes[0]) + Kept(titles[1], sizes[1]) + Kept(titles[2], sizes[2]) + Kept(titles[3], sizes[3])
  {
    assert titles[..0] == [] && sizes[..0] == [];
    PresentStep(titles, sizes, 1);
    PresentStep(titles, sizes, 2);
    PresentStep(titles, sizes, 3);
    PresentStep(titles, sizes, 4);
    assert titles[..4] == titles && sizes[..4] == sizes;
  }

  lemma ListSheetsNames(ls: seq<ListConfig>)
    requires |ls| == 4
    ensures Names(ListsSheets(ls)) == Names(ListSheets(ls[0])) + Names(ListSheets(ls[1]))
      + Names(ListSheets(ls[2])) + Names(ListSheets(ls[3]))
  {
    NamesAppend(ListSheets(ls[0]), ListSheets(ls[1]));
    NamesAppend(ListSheets(ls[0]) + ListSheets(ls[1]), ListSheets(ls[2]));
    NamesAppend(ListSheets(ls[0]) + ListSheets(ls[1]) + ListSheets(ls[2]), ListSheets(ls[3]));
  }

  lemma ListSheetName(l: ListConfig)
    ensures Names(ListSheets(l)) == Kept(l.title, |l.entries|)
  {
  }

  /** The list sheets are named by the titles of the non-empty lists, in order. */
  lemma ListSheetNames(ls: seq<ListConfig>, titles: seq<string>, sizes: seq<nat>)
    requires |ls| == |titles| == |sizes| == 4
    requires forall k :: 0 <= k < 4 ==> titles[k] == ls[k].title && sizes[k] == |ls[k].entries|
    ensures Names(ListsSheets(ls)) == Present(titles, sizes)
  {
    ListSheetsNames(ls);
    PresentOfFour(titles, sizes);
    ListSheetName(ls[0]);
    ListSheetName(ls[1]);
    ListSheetName(ls[2]);
    ListSheetName(ls[3]);
  }

  /** The names of all sheets: the non-empty sections', the non-empty lists', 'All Metrics', 'Overview'. */
  lemma AllSheetNames(cs: seq<SectionConfig>, ls: seq<ListConfig>, startFilter: string, endFilter: string,
    generatedAt: string, sectionTitles: seq<string>, sectionSizes: seq<nat>, listTitles: seq<string>,
    listSizes: seq<nat>)
    requires |sectionTitles| == |sectionSizes| == |cs|
    requires forall k :: 0 <= k < |cs| ==>
      sectionTitles[k] == SanitizeSheetName(cs[k].title) && sectionSizes[k] == |cs[k].metrics|
    requires |ls| == |listTitles| == |listSizes| == 4
    requires forall k :: 0 <= k < 4 ==> listTitles[k] == ls[k].title && listSizes[k] == |ls[k].entries|
    ensures Names(AllSheets(cs, ls, startFilter, endFilter, generatedAt))
      == Present(sectionTitles, sectionSizes) + Present(listTitles, listSizes) + ["All Metrics", "Overview"]
  {
    KpiSheetNames(cs, sectionTitles, sectionSizes);
    ListSheetNames(ls, listTitles, listSizes);
    var summary := [NamedSheet("All Metrics", UnifiedSheet(FlattenRows(cs, ls))),
      NamedSheet("Overview", OverviewSheet(generatedAt, startFilter, endFilter, KpiCount(cs)))];
    NamesAppend(KpiSheets(cs), ListsSheets(ls));
    NamesAppend(KpiSheets(cs) + ListsSheets(ls), summary);
  }

  /**
   * The sheets are named, in order: each non-empty KPI section's title, each
   * non-empty list's title, 'All Metrics' and 'Overview'.
   */
  lemma SheetNames(d: DashboardData, startFilter: string, endFilter: string, generatedAt: string)
    ensures Names(ReportSheets(d, startFilter, endFilter, generatedAt))
      == Present(SectionTitles, SectionSizes(d)) + Present(ListTitles, ListSizes(d)) + ["All Metrics", "Overview"]
  {
    var cs := SectionConfigs(d);
    var ls := ListConfigs(d);
    SectionConfigsNamed(d);
    ListConfigsNamed(d);
    AllSheetNames(cs, ls, startFilter, endFilter, generatedAt, SectionTitles, SectionSizes(d), ListTitles, ListSizes(d));
  }

  lemma SectionConfigsNamed(d: DashboardData)
    ensures forall k :: 0 <= k < 6 ==>
      SectionTitles[k] == SanitizeSheetName(SectionConfigs(d)[k].title) && SectionSizes(d)[k] == |SectionConfigs(d)[k].metrics|
  {
    var cs := SectionConfigs(d);
    SectionTitlesSanitized();
    forall k | 0 <= k < 6
      ensures SectionTitles[k] == SanitizeSheetName(cs[k].title) && SectionSizes(d)[k] == |cs[k].metrics|
    {
      assert cs[k].title == SectionTitles[k];
      assert SanitizeSheetName(SectionTitles[k]) == SectionTitles[k];
    }
  }

  lemma ListConfigsNamed(d: DashboardData)
    ensures forall k :: 0 <= k < 4 ==> ListTitles[k] == ListConfigs(d)[k].title && ListSizes(d)[k] == |ListConfigs(d)[k].entries|
  {
  }

  lemma DistinctSplit(a: seq<string>, b: seq<string>)
    requires Distinct(a + b)
    ensures Distinct(a) && Distinct(b) && forall x :: x in a ==> x !in b
  {
    forall i, j | 0 <= i < j < |a|
      ensures a[i] != a[j]
    {
      assert a[i] == (a + b)[i] && a[j] == (a + b)[j];
    }
    forall i, j | 0 <= i < j < |b|
      ensures b[i] != b[j]
    {
      assert b[i] == (a + b)[|a| + i] && b[j] == (a + b)[|a| + j];
    }
    forall x | x in a
      ensures x !in b
    {
      var i :| 0 <= i < |a| && a[i] == x;
      forall j | 0 <= j < |b|
        ensures b[j] != x
      {
        assert (a + b)[i] == x && (a + b)[|a| + j] == b[j];
      }
    }
  }

  /** Keeping some of the section titles and some of the list titles keeps the names apart. */
  lemma PresentKeepsApart(t1: seq<string>, s1: seq<nat>, t2: seq<string>, s2: seq<nat>, c: seq<string>)
    requires |t1| == |s1| && |t2| == |s2| && Distinct(t1 + t2 + c)
    ensures Distinct(Present(t1, s1) + Present(t2, s2) + c)
  {
    DistinctSplit(t1 + t2, c);
    DistinctSplit(t1, t2);
    var a := Present(t1, s1);
    var b := Present(t2, s2);
    PresentDistinct(t1, s1);
    PresentDistinct(t2, s2);
    DistinctConcat(a, b);
    forall x | x in a + b
      ensures x !in c
    {
      assert x in t1 + t2;
    }
    DistinctConcat(a + b, c);
  }

  const FixedNames: seq<string> := SectionTitles + ListTitles + ["All Metrics", "Overview"]

  /** The twelve names a sheet can have are told apart by their first letter and their length. */
  lemma FixedNamesDistinct()
    ensures Distinct(FixedNames)
  {
    var keys := [('G', 13), ('B', 16), ('J', 18), ('C', 17), ('E', 16), ('W', 19), ('T', 15), ('T', 9), ('T', 13),
      ('P', 15), ('A', 11), ('O', 8)];
    assert |FixedNames| == 12;
    assert forall i :: 0 <= i < 12 ==> |FixedNames[i]| > 0 && keys[i] == (FixedNames[i][0], |FixedNames[i]|);
    assert forall i, j :: 0 <= i < j < 12 ==> keys[i] != keys[j];
  }

  /** Every one of the twelve names is a valid sheet name. */
  lemma FixedNamesValid()
    ensures forall x :: x in FixedNames ==> ValidSheetName(x)
  {
    forall k | 0 <= k < |FixedNames|
      ensures ValidSheetName(FixedNames[k])
    {
      var x := FixedNames[k];
      assert forall i :: 0 <= i < |x| ==> x[i] == ' ' || 'A' <= x[i] <= 'Z' || 'a' <= x[i] <= 'z';
    }
  }

  /** Keeping some of the section and list titles keeps only names among all of them. */
  lemma PresentWithin(t1: seq<string>, s1: seq<nat>, t2: seq<string>, s2: seq<nat>, c: seq<string>)
    requires |t1| == |s1| && |t2| == |s2|
    ensures forall x :: x in Present(t1, s1) + Present(t2, s2) + c ==> x in t1 + t2 + c
  {
  }

  /** No two sheets of the workbook share a name, and every name is one a workbook accepts. */
  lemma SheetNamesUnique(d: DashboardData, startFilter: string, endFilter: string, generatedAt: string)
    ensures var names := Names(ReportSheets(d, startFilter, endFilter, generatedAt));
      Distinct(names) && forall k :: 0 <= k < |names| ==> ValidSheetName(names[k])
  {
    var names := Names(ReportSheets(d, startFilter, endFilter, generatedAt));
    var c := ["All Metrics", "Overview"];
    SheetNames(d, startFilter, endFilter, generatedAt);
    assert names == Present(SectionTitles, SectionSizes(d)) + Present(ListTitles, ListSizes(d)) + c;
    FixedNamesDistinct();
    FixedNamesValid();
    PresentKeepsApart(SectionTitles, SectionSizes(d), ListTitles, ListSizes(d), c);
    PresentWithin(SectionTitles, SectionSizes(d), ListTitles, ListSizes(d), c);
    forall k | 0 <= k < |names|
      ensures ValidSheetName(names[k])
    {
      assert names[k] in FixedNames;
    }
  }

  /** The 'Total KPI Metrics' of the overview is the sum of the six section sizes, one per KPI row. */
  lemma OverviewCount(d: DashboardData, startFilter: string, endFilter: string, generatedAt: string)
    ensures var sheets := ReportSheets(d, startFilter, endFilter, generatedAt);
      var total := Sum(SectionSizes(d));
      && sheets[|sheets| - 1].name == "Overview"
      && sheets[|sheets| - 1].rows[1] == [("Metric", Text("Start Date Filter")),
        ("Value", Text(if startFilter == "" then "Not Applied" else startFilter))]
      && sheets[|sheets| - 1].rows[2] == [("Metric", Text("End Date Filter")),
        ("Value", Text(if endFilter == "" then "Not Applied" else endFilter))]
      && sheets[|sheets| - 1].rows[3] == [("Metric", Text("Total KPI Metrics")), ("Value", Int(total))]
      && total == |KpiRows(SectionConfigs(d))|
  {
    SectionSum(d);
    KpiRowsCount(SectionConfigs(d));
  }

  /** Titles that all have something are all kept. */
  lemma {:induction false} PresentAll(titles: seq<string>, sizes: seq<nat>)
    requires |titles| == |sizes| && forall k :: 0 <= k < |sizes| ==> sizes[k] != 0
    ensures Present(titles, sizes) == titles
  {
    if titles != [] {
      var n := |titles| - 1;
      PresentAll(titles[..n], sizes[..n]);
      assert titles[..n] + [titles[n]] == titles;
    }
  }

  lemma ServerSectionSizes(r: FetchResults)
    ensures SectionSizes(BuildDashboardData(r)) == [7, 7, 5, 2, 2, 10]
  {
  }

  lemma SumOfSix(s: seq<nat>)
    requires |s| == 6
    ensures Sum(s) == s[0] + s[1] + s[2] + s[3] + s[4] + s[5]
  {
    assert s[..0] == [];
    SumStep(s, 1);
    SumStep(s, 2);
    SumStep(s, 3);
    SumStep(s, 4);
    SumStep(s, 5);
    SumStep(s, 6);
    assert s[..6] == s;
  }

  /** The six section sheets first, in section order, and 'All Metrics' and 'Overview' last. */
  predicate SectionsFirst(names: seq<string>) {
    |names| >= 8 && names[..6] == SectionTitles && names[|names| - 2..] == ["All Metrics", "Overview"]
  }

  /** When no KPI section is empty, the six section sheets come first, in section order. */
  lemma FullSectionsExport(d: DashboardData, startFilter: string, endFilter: string, generatedAt: string)
    requires forall k :: 0 <= k < 6 ==> SectionSizes(d)[k] != 0
    ensures SectionsFirst(Names(ReportSheets(d, startFilter, endFilter, generatedAt)))
  {
    var names := Names(ReportSheets(d, startFilter, endFilter, generatedAt));
    var rest := Present(ListTitles, ListSizes(d)) + ["All Metrics", "Overview"];
    assert names == SectionTitles + rest by {
      PresentAll(SectionTitles, SectionSizes(d));
      SheetNames(d, startFilter, endFilter, generatedAt);
    }
    assert |rest| >= 2 && rest[|rest| - 2..] == ["All Metrics", "Overview"];
    assert names[..6] == SectionTitles;
    assert names[|names| - 2..] == rest[|rest| - 2..];
  }

  /**
   * The report the server builds always exports its six KPI sections as the
   * first six sheets, in section order, and counts 33 KPI metrics.
   */
  lemma ServerReportExport(r: FetchResults, startFilter: string, endFilter: string, generatedAt: string)
    ensures SectionsFirst(Names(ReportSheets(BuildDashboardData(r), startFilter, endFilter, generatedAt)))
    ensures Sum(SectionSizes(BuildDashboardData(r))) == 33
  {
    var d := BuildDashboardData(r);
    ServerSectionSizes(r);
    SumOfSix(SectionSizes(d));
    FullSectionsExport(d, startFilter, endFilter, generatedAt);
  }
}
