# Recruitment analytics dashboard: aggregation and export core

This project models the part of the recruitment analytics dashboard that turns
raw analytics reports into the dashboard report and the report into an export
workbook.

On the server (`backend/server.js`), the `/api/dashboard-data` handler runs in these steps:

1. It resolves an optional end date, or "yesterday" by the server clock, into an
   anchor day, the first of its month and the first of its year (`getDateRanges`).
2. From the optional start date it chooses the selected, month-to-date,
   year-to-date and breakdown windows.
3. It sends ten queries to the analytics provider.
4. It shapes each answer:
   - the core metrics of the first row, or `null`, or zeros;
   - the traffic-source, top-page and top-job-page lists;
   - the page-category rollup. This classifies page paths into Dev, Mkt, Sales, HR
     and Other by keyword, sums views per bucket and drops the buckets with no views.
5. It assembles the fixed-shape report: six KPI sections of 7, 7, 5, 2, 2 and 10
   rows, made of live cells and constant placeholders, followed by the four lists.

In the page (`pages/DashboardPage.tsx`), the export runs in these steps:

1. Sheet names are sanitised.
2. Cells are formatted.
3. `buildReportArtifacts` flattens the report into unified rows and appends named
   sheets to a workbook:
   - one sheet per non-empty KPI section;
   - one per non-empty list;
   - then 'All Metrics' and 'Overview'.

The export-menu toggle opens the menu only when a report is loaded and nothing is
loading or being exported.

## How the pieces are modelled

- **Values.** JavaScript numbers are `Num = Finite(real) | NaN`. Report cells are
  numbers, strings, or the two formatted strings the server builds: a bounce
  percentage and a rounded duration.
- **Dates.** Dates are Gregorian `(year, month, day)` triples in years 0 to 9999,
  printed as ISO 8601 calendar dates (`YYYY-MM-DD`). The server's clock is a
  parameter: the UTC calendar day. `new Date(endDate)` reads a `YYYY-MM-DD` text
  with any month from 1 to 12 and any day from 1 to 31. A day past the end of
  its month rolls into the next month, so `2023-02-29` is read as 2023-03-01.
- **The analytics client.** It is a function from a request (report kind and date
  window) to an outcome: either it threw, or it returned a response whose `rows`
  may be missing.
- **Imperative code.**
  - `getDateRanges` is a method proved against the function `DateRangesFor`.
  - The category `forEach` is a method whose loop invariant ties the running
    `categories` dictionary to the function `Tally` of the rows seen so far.
  - The workbook is a class whose `AppendSheet` appends a named sheet.
  - `buildReportArtifacts` and its `forEach` blocks are methods that push rows and
    append sheets. Each is proved against the functions `UnifiedRows` and
    `ReportSheets`.
  - The page's state hooks are the fields of a `DashboardPage` class.
- **Pure code.** The row→snapshot/list shaping, the report literal, the
  sanitiser and the cell formatter are functions.

An `endDate` that `new Date` cannot read gives an invalid date. `toISOString` then
throws a RangeError inside the handler's `try`, so the endpoint answers HTTP 500
'Internal Server Error'. Such a date is not sent to the provider as a query
(`Endpoint.FailsOnlyOnBadEndDate`).

## Model

| member | source | states |
|---|---|---|
| Calendar.Yesterday | backend/server.js:75-78 | the day before a valid date (other than the first representable one) is a valid date |
| Calendar.YesterdayTomorrow | backend/server.js:75-78 | stepping back a day and forward a day are inverse to each other |
| Calendar.YesterdayIsOneDayEarlier | backend/server.js:75-78 | yesterday's day number is one less than today's |
| Calendar.StartsPrecede | backend/server.js:81-87 | the first of the year is no later than the first of the month, which is no later than the date |
| Calendar.Format | backend/server.js:64 | `toISOString().split('T')[0]` prints a date in ten characters |
| Calendar.ParseFormat | backend/server.js:64 | reading back a printed date gives the date |
| Calendar.Parse | backend/server.js:71 | a text `new Date` reads denotes a valid date |
| Calendar.ParseCountsDays | backend/server.js:71 | exactly the `YYYY-MM-DD` texts with month 1..12 and day 1..31 are read, and the date read lies `day - 1` days after the first of the written month, rolling past the month's end |
| Calendar.ParseRollsOver | backend/server.js:71 | `2023-02-29` is read as 2023-03-01 |
| Calendar.ParseRejectsDay32 | backend/server.js:71 | `2024-02-32` is not read |
| Calendar.FormatParse | backend/server.js:71-72 | a read end date is printed back unchanged iff it names a day that exists, so `endStr` differs from the given text exactly when the day rolled over |
| DateRanges.ReferenceDate | backend/server.js:66-79 | the anchor is the day `new Date` reads from the given end date, rolled over past a month's end, else yesterday; none when the text is not read |
| DateRanges.GetDateRanges | backend/server.js:62-90 | the method computes exactly the ranges of `DateRangesFor`, or fails where it fails |
| DateRanges.DateRangesMeaning | backend/server.js:62-90 | fails iff the end date is given and not `YYYY-MM-DD` with month 1..12 and day 1..31; otherwise `mtdStart` is day 1 of the anchor's month, `ytdStart` is January 1 of its year, `ytdStart <= mtdStart <= endStr`, `todayStr == endStr`; a given end date denotes the same day as `endStr` and equals it iff it names a day that exists; without one the anchor is yesterday |
| DateRanges.RolledEndDateExample | backend/server.js:62-90 | `endDate=2023-02-29` gives `endStr` 2023-03-01, `mtdStart` 2023-03-01 and `ytdStart` 2023-01-01 |
| DateRanges.WindowsShape | backend/server.js:309-342 | every window ends at `endStr`; the selected window starts at `startDate` or `endStr`; the breakdown window is the selected window when `startDate` is given, else month-to-date |
| DateRanges.DefaultWindowsNest | backend/server.js:309-342 | without a start date the selected window is the single anchor day, and year start <= month start <= anchor |
| DateRanges.YesterdayExamples | backend/server.js:75-78 | 2024-03-01 → 2024-02-29, 2023-03-01 → 2023-02-28, 1900 and 2000 leap rules, 2024-01-01 → 2023-12-31 |
| DateRanges.FormatExamples | backend/server.js:64 | dates print as zero-padded `YYYY-MM-DD` |
| DateRanges.AnchorExample | backend/server.js:70-72 | an explicit end date 2024-03-15 gives month start 2024-03-01 and year start 2024-01-01 |
| JsNumbers.DigitPrefix | backend/server.js:110 | `parseInt` reads the longest run of digits at the front |
| JsNumbers.ParseOfIntToString | backend/server.js:110-113 | `parseInt`/`parseFloat` of an integer's decimal text give that integer |
| JsNumbers.ParseIntSignedDigits | backend/server.js:243 | `parseInt` of optional sign then digits is the signed value |
| JsNumbers.NoDigitsIsNaN | backend/server.js:243 | text without digits parses to NaN |
| JsNumbers.ParseFloatDecimal | backend/server.js:113 | `parseFloat` of a `whole.fraction` text such as "52.34" is the decimal value it writes |
| JsStrings.ToLowerCase | backend/server.js:242 | lower-casing keeps the length and maps each character |
| JsStrings.ContainsIffOccurs | backend/server.js:245-251 | `includes` holds iff the keyword occurs at some position |
| JsStrings.TrimIsMiddle | pages/DashboardPage.tsx:71 | `trim` gives a middle slice with no white space at either end |
| JsStrings.TrimNoop | pages/DashboardPage.tsx:71 | a string with no white space at its ends is its own trim |
| Js.OrZero | backend/server.js:354 | `x \|\| 0` is x when x is truthy, else 0 |
| Fetchers.GetGA4Metrics | backend/server.js:95-131 | null iff the query threw or the first row lacks a metric; a zeroed snapshot when rows are absent or empty; otherwise each field is the first row's parsed value, or 0 when that value does not parse, so a snapshot never holds NaN |
| Fetchers.GA4MetricsReadFirstRow | backend/server.js:108-121 | a first row of integer counts and a decimal duration is read field by field, ignoring later rows |
| Fetchers.GA4MetricsUnreadableIsZero | backend/server.js:110-113 | a first-row text with no digit gives 0 in its field |
| Fetchers.GetAdditionalMetrics | backend/server.js:271-298 | null iff the query threw or the first row lacks a metric; all zeros when rows are absent or empty |
| Fetchers.AdditionalMetricsReadFirstRow | backend/server.js:284-292 | a first row of a decimal bounce rate and integer counts is read field by field |
| Fetchers.AdditionalMetricsUnreadableIsNaN | backend/server.js:287-290 | a first-row text with no digit stays NaN in its field, as there is no `\|\| 0` |
| Fetchers.GetTrafficSources | backend/server.js:136-154 | [] when the query throws or rows are missing; as many entries as rows when every row is well formed, so none for an empty list |
| Fetchers.TrafficSourcesOneToOne | backend/server.js:146-149 | entry i is row i's name and parsed sessions, in provider order |
| Fetchers.GetTopPages | backend/server.js:159-178 | [] when the query throws or rows are missing; as many entries as rows when every row is well formed |
| Fetchers.TopPagesOneToOne | backend/server.js:170-173 | entry i is row i's path and parsed views; the job-page fetcher gives the same for these rows |
| Fetchers.GetTopJobPages | backend/server.js:183-214 | [] with absent or empty rows (and on error); as many entries as rows when every row is well formed |
| Fetchers.TopJobPagesLikeTopPages | backend/server.js:204-209 | the job-page shaping agrees with the top-page shaping on every outcome |
| Categories.Rank | backend/server.js:233-239 | each bucket has its place in the order Dev, Mkt, Sales, HR, Other |
| Categories.ClassifyFirstMatchWins | backend/server.js:245-255 | a path falls in a bucket iff it mentions one of its keywords and none of an earlier bucket's; Other iff it mentions none |
| Categories.RuleMatches | backend/server.js:245-251 | a rule fires iff one of its keywords occurs in the lower-cased path |
| Categories.ClassifyExample | backend/server.js:245-248 | "dev-marketing" is Dev |
| Categories.Visits | backend/server.js:241-243 | one (bucket, views) pair per row, in row order |
| Categories.Tally | backend/server.js:233-256 | the dictionary after the `forEach` has all five buckets |
| Categories.TallyIsBucketTotal | backend/server.js:241-256 | each bucket's entry is the sum of the views of the rows classified into it |
| Categories.TallyStep | backend/server.js:246-254 | one row adds its views to its own bucket and changes no other |
| Categories.PageViewsByCategory | backend/server.js:230-261 | [] when the query fails, returns no rows or has a malformed row |
| Categories.GetPageViewsByCategory | backend/server.js:220-266 | the loop-and-filter method computes exactly `PageViewsByCategory` |
| Categories.EntriesUpToShape | backend/server.js:259-261 | at most five entries, each a bucket with its full total and positive, in strictly increasing bucket order |
| Categories.EntriesUpToComplete | backend/server.js:259-261 | a bucket is emitted iff its total is positive |
| Categories.PageViewsByCategoryShape | backend/server.js:230-261 | the rollup has at most five positive entries in the fixed order, and exactly the buckets whose total is positive |
| Categories.NaNPoisonsBucket | backend/server.js:243-254 | an unparseable view count makes its bucket's sum NaN |
| Categories.NaNBucketDropped | backend/server.js:243-261 | a bucket with an unparseable count is never emitted (`NaN > 0` is false) |
| Categories.BucketTotalCountable | backend/server.js:241-256 | with natural view counts every bucket total is a natural |
| Categories.BucketsAddUp | backend/server.js:241-256 | the five bucket totals add up to the total views |
| Categories.EntriesAddUp | backend/server.js:259-261 | dropping zero buckets does not change the sum |
| Categories.Conservation | backend/server.js:230-261 | with natural view counts the emitted values sum to the total views of the rows |
| Response.Live | backend/server.js:354-356 | a live cell is the snapshot's field when truthy, else 0, and 0 for a null snapshot |
| Response.BounceCell | backend/server.js:402 | the cell is a percentage of the rate iff the snapshot exists and its rate is truthy, else "0%" |
| Response.DurationCell | backend/server.js:403 | the cell is the rounded seconds iff the snapshot exists and its duration is truthy, else "0s" |
| Response.BuildDashboardData | backend/server.js:350-411 | sections have 7, 7, 5, 2, 2, 10 rows; the lists pass through; the category list is never absent |
| Response.SectionLabels | backend/server.js:350-406 | every section has its fixed labels in order |
| Response.PlaceholdersAreConstant | backend/server.js:364-398 | placeholder rows do not depend on the fetch results |
| Response.NoNaNCells | backend/server.js:350-406 | no KPI cell is ever NaN |
| Response.AllFailedReport | backend/server.js:350-411 | when every fetch failed the live cells are 0, "0%", "0s" and the lists are empty |
| Response.LiveCellsReadTheirWindow | backend/server.js:351-405 | each of the today, MTD and YTD columns depends only on its own window's two snapshots: results that agree on them give the same labels and cells in that column of every row of every section |
| Response.TotalUsersAreWebsiteVisits | backend/server.js:350-399 | the "Total Users" row repeats "Website Visits", whose cells are each window's active users or 0 |
| Endpoint.GetDashboardData | backend/server.js:304-419 | the handler computes exactly `DashboardSpec` |
| Endpoint.FailsOnlyOnBadEndDate | backend/server.js:304-419 | 500 'Internal Server Error' iff the end date is given and not `YYYY-MM-DD` with month 1..12 and day 1..31 |
| Endpoint.OnlyPlannedQueriesMatter | backend/server.js:321-343 | the answer depends on the provider only through the ten planned queries |
| Endpoint.BreakdownWindow | backend/server.js:332-343 | ten queries all ending at `endStr`; the four breakdowns cover the user's range or the month to date |
| Endpoint.TopPagesFailureIsolated | backend/server.js:159-178 | one failing query only empties its own list |
| Endpoint.EveryQueryThrows | backend/server.js:321-411 | with every query failing the handler still answers 200 with the all-zero report |
| ExportValues.RemoveForbidden | pages/DashboardPage.tsx:71 | the replace leaves none of `\ / ? * : \| [ ]` and never lengthens |
| ExportValues.RemoveForbiddenKeepsClean | pages/DashboardPage.tsx:71 | a name without them is unchanged |
| ExportValues.RemoveForbiddenConcat | pages/DashboardPage.tsx:71 | removal on a concatenation is the removal on each part, so allowed characters are kept in order |
| ExportValues.SanitizeSheetName | pages/DashboardPage.tsx:70-73 | the result is 1 to 31 characters with no forbidden character |
| ExportValues.SanitizeKeepsValidNames | pages/DashboardPage.tsx:70-73 | a valid name without white space at its ends is kept |
| ExportValues.SanitizeNotIdempotent | pages/DashboardPage.tsx:70-73 | a 32-character name cut to end in a space is changed again by a second pass |
| ExportValues.Round2 | pages/DashboardPage.tsx:78 | rounding is within 0.005 and lands on a hundredth |
| ExportValues.FormatExportValue | pages/DashboardPage.tsx:75-81 | null → ''; strings, integers and NaN unchanged; other numbers rounded to hundredths |
| ExportValues.Round2OfHundredths | pages/DashboardPage.tsx:78 | a number already at hundredths is unchanged |
| ExportValues.FormatIdempotent | pages/DashboardPage.tsx:75-81 | formatting twice is formatting once |
| ReportExport.Workbook.constructor | pages/DashboardPage.tsx:93 | a new workbook has no sheets |
| ReportExport.Workbook.AppendSheet | pages/DashboardPage.tsx:126 | appends one named sheet at the end |
| ReportExport.SectionConfigs | pages/DashboardPage.tsx:96-103 | six sections titled in the fixed order |
| ReportExport.ListConfigs | pages/DashboardPage.tsx:129-207 | four lists titled in the fixed order; an absent category list has no entries |
| ReportExport.FlattenSection | pages/DashboardPage.tsx:107-124 | pushes each metric's row, in order, and builds the section's sheet rows |
| ReportExport.AppendSection | pages/DashboardPage.tsx:105-127 | one section: no rows and no sheet when it has no metrics, otherwise its rows and a sheet named by its sanitised title |
| ReportExport.AppendSections | pages/DashboardPage.tsx:105-127 | the KPI rows and sheets of the non-empty sections, appended in order |
| ReportExport.AppendList | pages/DashboardPage.tsx:129-147 | a non-empty list pushes a row per entry and appends its sheet; an empty one does nothing |
| ReportExport.AppendLists | pages/DashboardPage.tsx:129-207 | the four list blocks in order |
| ReportExport.CountKpiMetrics | pages/DashboardPage.tsx:227 | the `reduce` gives the number of KPI metrics |
| ReportExport.AppendSummary | pages/DashboardPage.tsx:209-230 | the Info row when nothing was pushed, then 'All Metrics' and 'Overview' |
| ReportExport.BuildReportArtifacts | pages/DashboardPage.tsx:92-233 | a fresh workbook whose sheets are `ReportSheets` and unified rows equal to `UnifiedRows` |
| ReportFacts.KpiRowsCount | pages/DashboardPage.tsx:105-228 | one KPI row per metric: their number is the overview's count |
| ReportFacts.KpiRowsOrder | pages/DashboardPage.tsx:96-127 | the KPI rows are the six sections' rows in the fixed order, empty sections giving none |
| ReportFacts.UnifiedRowsOrder | pages/DashboardPage.tsx:96-218 | the unified rows are the six sections' rows then the four lists' rows; the Info row alone if all are empty |
| ReportFacts.ListRowsBlank | pages/DashboardPage.tsx:129-207 | every list row has a number for Today and '' for MTD, YTD and Notes |
| ReportFacts.UnifiedRowCount | pages/DashboardPage.tsx:209-218 | the rows number the sum of all section and list sizes; exactly the Info row when that sum is 0 |
| ReportFacts.KpiSheetNames | pages/DashboardPage.tsx:105-127 | the KPI sheets are named by the sanitised titles of the non-empty sections, in order |
| ReportFacts.ListSheetNames | pages/DashboardPage.tsx:129-207 | the list sheets are named by the titles of the non-empty lists, in order |
| ReportFacts.SheetNames | pages/DashboardPage.tsx:105-230 | sheet names: non-empty sections' titles, non-empty lists' titles, 'All Metrics', 'Overview' |
| ReportFacts.SheetNamesUnique | pages/DashboardPage.tsx:126-230 | no two sheets share a name and every name is a valid sheet name |
| ReportFacts.OverviewCount | pages/DashboardPage.tsx:221-230 | the overview shows the filters or 'Not Applied' and a 'Total KPI Metrics' equal to the six section sizes summed |
| ReportFacts.FullSectionsExport | pages/DashboardPage.tsx:105-127 | with no empty section the six section sheets come first, in order |
| ReportFacts.ServerReportExport | backend/server.js:350-411 | the server's report always exports its six sections first and counts 33 KPI metrics |
| ExportMenu.Toggle | pages/DashboardPage.tsx:64-68 | the menu flips iff a report is loaded and nothing loads or exports; then the error is cleared; nothing else changes |
| ExportMenu.ToggleTwice | pages/DashboardPage.tsx:64-68 | toggling twice restores the menu and leaves no error |
| ExportMenu.ToggleBlocked | pages/DashboardPage.tsx:65 | a blocked toggle changes nothing |
| ExportMenu.OpensOnlyWhenReady | pages/DashboardPage.tsx:64-68 | the menu only opens with a loaded report and no load or export under way |
| ExportMenu.DashboardPage.constructor | pages/DashboardPage.tsx:16-22 | the hooks start with no report, loading, no export, no error, the menu closed |
| ExportMenu.DashboardPage.ToggleExportMenu | pages/DashboardPage.tsx:64-68 | the page state after the call is `Toggle` of the state before; the report is untouched |

## Left out

- Binary floating point: numbers are exact reals, so `toFixed(2)`, `toFixed(1)` and `Math.round` are modelled on exact values and no rounding error is represented.
- ExportValues.FormatExportValue: the non-integer branch rounds |x| half up in exact arithmetic; the digits `toFixed(2)` produces for a binary double can differ in the last place.
- Response.BounceCell: records the rate the `toFixed(1)` percentage string shows, not the characters of that string.
- Response.DurationCell: records the duration `Math.round` shows, not the characters of the string.
- JsNumbers.ParseInt: decimal digits with an optional sign only; hexadecimal prefixes, exponents in `parseFloat`, and `Infinity` are not modelled.
- Calendar.Parse: `new Date(text)` is modelled for `YYYY-MM-DD` texts only. The model reads month 1 to 12 and day 1 to 31, rolling a day past the month's end into the next month. Other formats JavaScript accepts (date-times, signed six-digit years, legacy forms) count as unreadable.
- Time zones: the server clock is a UTC calendar day, and `new Date(y, m, 1)` is taken to be in the same zone as `toISOString`.
- JsStrings.ToLowerCase: ASCII letters only; Unicode case mapping and UTF-16 code units are not modelled.
- JSON encoding of the response (NaN becomes `null`), the `Promise.all` concurrency, logging and the Express routing.
- The analytics provider's own behaviour: the limits, ordering and path filter of each query are its business; the model takes whatever rows it returns.
- The `xlsx` and `jsPDF` libraries, `handleExportReport` and file download: only "append a named sheet" is kept.
- The 'Report Generated At' value: it is the caller's clock rendered by `toLocaleString`, passed in as text.
- The rest of the page and server: authentication, data loading, charts, the click-outside handler and theme.
- The Mkt rule lists 'marketing' twice; the model keeps the duplicate, which changes nothing.
