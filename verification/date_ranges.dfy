/**
 * The date range resolver of the dashboard endpoint and its choice of the windows
 * each analytics query covers.
 */
module DateRanges {
  import opened Js
  import opened Calendar
  import opened Digits

  /** A query parameter as JavaScript tests it: absent and '' are both falsy. */
  predicate Given(p: Option<string>) {
    p.Some? && p.value != ""
  }

  /** The server clock's calendar day (UTC), on which the default "yesterday" is computed. */
  predicate ValidClock(today: Date) {
    Valid(today) && today != First
  }

  /** The four strings getDateRanges returns. */
  datatype Ranges = Ranges(endStr: string, mtdStart: string, ytdStart: string, todayStr: string)

  /**
   * The date all ranges are anchored on: the day `new Date` reads from the given
   * end date (a day past the month's end rolls into the next month), else
   * yesterday. None when the text is not read: `new Date` then holds an invalid
   * date and `toISOString` throws.
   */
  function ReferenceDate(customEndDate: Option<string>, today: Date): (d: Option<Date>)
    requires ValidClock(today)
    ensures d.Some? ==> Valid(d.value)
  {
    if Given(customEndDate) then Parse(customEndDate.value) else Some(Yesterday(today))
  }

  /** What getDateRanges returns, or None when it throws. */
  function DateRangesFor(customEndDate: Option<string>, today: Date): Option<Ranges>
    requires ValidClock(today)
  {
    match ReferenceDate(customEndDate, today)
    case None => None
    case Some(d) =>
      Some(Ranges(Format(d), Format(StartOfMonth(d)), Format(StartOfYear(d)), Format(d)))
  }

  /** getDateRanges: resolves the optional end date into the end, month-start and year-start dates. */
  method GetDateRanges(customEndDate: Option<string>, today: Date) returns (r: Option<Ranges>)
    requires ValidClock(today)
    ensures r == DateRangesFor(customEndDate, today)
  {
    var referenceDate: Date;
    var endStr: string;
    if Given(customEndDate) {
      var parsed := Parse(customEndDate.value);
      if parsed.None? {
        // `toISOString` on an invalid date throws a RangeError
        return None;
      }
      referenceDate := parsed.value;
      endStr := Format(referenceDate);
    } else {
      var yesterday := today;
      yesterday := Yesterday(yesterday);
      referenceDate := yesterday;
      endStr := Format(yesterday);
    }
    StartsPrecede(referenceDate);
    var startOfMonth := StartOfMonth(referenceDate);
    var mtdStart := Format(startOfMonth);
    var startOfYear := StartOfYear(referenceDate);
    var ytdStart := Format(startOfYear);
    r := Some(Ranges(endStr, mtdStart, ytdStart, endStr));
  }

  /**
   * The resolver fails only on a given end date that is not `YYYY-MM-DD` with a
   * month from 1 to 12 and a day from 1 to 31. Otherwise its strings denote the
   * reference date, the first of its month and January 1 of its year, in that
   * order in time, and `todayStr` is `endStr`; a given end date denotes the same
   * day as `endStr` and is echoed unchanged exactly when it names a day that
   * exists; without one the reference date is the day before today.
   */
  lemma DateRangesMeaning(customEndDate: Option<string>, today: Date)
    requires ValidClock(today)
    ensures DateRangesFor(customEndDate, today).None?
        <==> Given(customEndDate) && !Readable(customEndDate.value)
    ensures DateRangesFor(customEndDate, today).Some? ==>
      var r := DateRangesFor(customEndDate, today).value;
      && Parse(r.endStr).Some? && Parse(r.mtdStart).Some? && Parse(r.ytdStart).Some?
      && var (end, mtd, ytd) := (Parse(r.endStr).value, Parse(r.mtdStart).value, Parse(r.ytdStart).value);
      && mtd == Date(end.year, end.month, 1)
      && ytd == Date(end.year, 1, 1)
      && LessEq(ytd, mtd) && LessEq(mtd, end)
      && r.todayStr == r.endStr
      && (Given(customEndDate) ==>
            Parse(r.endStr) == Parse(customEndDate.value)
            && (r.endStr == customEndDate.value <==> IsCalendarDate(customEndDate.value)))
      && (!Given(customEndDate) ==> end == Yesterday(today) && DayNumber(end) == DayNumber(today) - 1)
  {
    var d := ReferenceDate(customEndDate, today);
    if Given(customEndDate) {
      ParseCountsDays(customEndDate.value);
    }
    if d.Some? {
      var v := d.value;
      StartsPrecede(v);
      ParseFormat(v);
      ParseFormat(StartOfMonth(v));
      ParseFormat(StartOfYear(v));
      if Given(customEndDate) {
        FormatParse(customEndDate.value);
      } else {
        YesterdayIsOneDayEarlier(today);
      }
    }
  }

  /** An inclusive `startDate .. endDate` pair of query dates, as sent to the provider. */
  datatype Window = Window(startDate: string, endDate: string)

  /**
   * The windows the endpoint queries: the selected one for the "today" column, the
   * month and year to date, and the one the four breakdowns use.
   */
  datatype Windows = Windows(selected: Window, mtd: Window, ytd: Window, breakdown: Window)

  function SelectWindows(startDate: Option<string>, r: Ranges): Windows {
    var selectedStart := if Given(startDate) then startDate.value else r.todayStr;
    var selectedEnd := r.endStr;
    Windows(
      Window(selectedStart, selectedEnd),
      Window(r.mtdStart, r.endStr),
      Window(r.ytdStart, r.endStr),
      Window(if !Given(startDate) then r.mtdStart else selectedStart, selectedEnd))
  }

  /**
   * Every window ends on the resolved end date. The selected window starts at the
   * given start date, else it is the single end day; the breakdowns follow the
   * given start date, else they cover the month to date.
   */
  lemma WindowsShape(startDate: Option<string>, endDate: Option<string>, today: Date)
    requires ValidClock(today) && DateRangesFor(endDate, today).Some?
    ensures var r := DateRangesFor(endDate, today).value;
      var w := SelectWindows(startDate, r);
      && w.selected.endDate == w.mtd.endDate == w.ytd.endDate == w.breakdown.endDate == r.endStr
      && w.mtd.startDate == r.mtdStart && w.ytd.startDate == r.ytdStart
      && w.selected.startDate == (if Given(startDate) then startDate.value else r.endStr)
      && w.breakdown == (if Given(startDate) then w.selected else w.mtd)
  {
  }

  /**
   * With no start date the windows nest as date intervals: the selected window is
   * the reference day alone, inside the month to date, inside the year to date, and
   * the breakdowns cover the month to date.
   */
  lemma DefaultWindowsNest(endDate: Option<string>, today: Date)
    requires ValidClock(today) && DateRangesFor(endDate, today).Some?
    ensures var r := DateRangesFor(endDate, today).value;
      var w := SelectWindows(None, r);
      && var day := ReferenceDate(endDate, today).value;
      && Parse(w.selected.startDate) == Parse(w.selected.endDate) == Some(day)
      && Parse(w.mtd.startDate).Some? && Parse(w.ytd.startDate).Some?
      && LessEq(Parse(w.ytd.startDate).value, Parse(w.mtd.startDate).value)
      && LessEq(Parse(w.mtd.startDate).value, day)
      && Parse(w.mtd.endDate) == Parse(w.ytd.endDate) == Some(day)
      && w.breakdown == w.mtd
  {
    var day := ReferenceDate(endDate, today).value;
    StartsPrecede(day);
    ParseFormat(day);
    ParseFormat(StartOfMonth(day));
    ParseFormat(StartOfYear(day));
  }

  /** Yesterday rolls over month ends, leap days and year ends. */
  lemma YesterdayExamples()
    ensures Yesterday(Date(2024, 3, 1)) == Date(2024, 2, 29)
    ensures Yesterday(Date(2023, 3, 1)) == Date(2023, 2, 28)
    ensures Yesterday(Date(1900, 3, 1)) == Date(1900, 2, 28)
    ensures Yesterday(Date(2000, 3, 1)) == Date(2000, 2, 29)
    ensures Yesterday(Date(2024, 1, 1)) == Date(2023, 12, 31)
    ensures Yesterday(Date(2024, 5, 1)) == Date(2024, 4, 30)
  {
  }

  /** The years used in the examples, printed four digits wide. */
  lemma PaddedYears()
    ensures PadDigits(2023, 4) == "2023" && PadDigits(2024, 4) == "2024"
  {
    assert PadDigits(2, 1) == "2" && PadDigits(20, 2) == "20" && PadDigits(202, 3) == "202";
  }

  /** The months and days used in the examples, printed two digits wide. */
  lemma PaddedDays()
    ensures PadDigits(1, 2) == "01" && PadDigits(3, 2) == "03" && PadDigits(15, 2) == "15"
  {
    assert PadDigits(0, 1) == "0" && PadDigits(1, 1) == "1";
  }

  lemma FormatExamples()
    ensures Format(Date(2024, 3, 15)) == "2024-03-15"
    ensures Format(Date(2024, 3, 1)) == "2024-03-01"
    ensures Format(Date(2024, 1, 1)) == "2024-01-01"
  {
    PaddedYears();
    PaddedDays();
  }

  /** An end date of 2024-03-15 gives month start 2024-03-01 and year start 2024-01-01. */
  lemma AnchorExample(today: Date)
    requires ValidClock(today)
    ensures DateRangesFor(Some("2024-03-15"), today)
         == Some(Ranges("2024-03-15", "2024-03-01", "2024-01-01", "2024-03-15"))
  {
    FormatExamples();
    ParseFormat(Date(2024, 3, 15));
  }

  lemma RolledFormats()
    ensures Format(Date(2023, 3, 1)) == "2023-03-01"
    ensures Format(Date(2023, 1, 1)) == "2023-01-01"
  {
    PaddedYears();
    PaddedDays();
  }

  /** An end date of 2023-02-29 is read as 2023-03-01, and the ranges are those of that day. */
  lemma RolledEndDateExample(today: Date)
    requires ValidClock(today)
    ensures DateRangesFor(Some("2023-02-29"), today)
         == Some(Ranges("2023-03-01", "2023-03-01", "2023-01-01", "2023-03-01"))
  {
    ParseRollsOver();
    RolledFormats();
  }
}
