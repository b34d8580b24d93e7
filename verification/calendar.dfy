/**
 * Gregorian calendar dates and their ISO 8601 calendar-date text `YYYY-MM-DD`,
 * the form the analytics provider takes its date ranges in.
 */
module Calendar {
  import opened Js
  import opened Digits

  datatype Date = Date(year: int, month: int, day: int)

  predicate IsLeapYear(y: int) {
    y % 4 == 0 && (y % 100 != 0 || y % 400 == 0)
  }

  function DaysInMonth(y: int, m: int): (n: int)
    requires 1 <= m <= 12
    ensures 28 <= n <= 31
  {
    if m == 2 then (if IsLeapYear(y) then 29 else 28)
    else if m == 4 || m == 6 || m == 9 || m == 11 then 30
    else 31
  }

  /** A real calendar day whose year has four digits. */
  predicate Valid(d: Date) {
    0 <= d.year <= 9999 && 1 <= d.month <= 12 && 1 <= d.day <= DaysInMonth(d.year, d.month)
  }

  const First: Date := Date(0, 1, 1)
  const Last: Date := Date(9999, 12, 31)

  /** The calendar day before d: what `date.setDate(date.getDate() - 1)` does to a date. */
  function Yesterday(d: Date): (y: Date)
    requires Valid(d) && d != First
    ensures Valid(y)
  {
    if d.day > 1 then Date(d.year, d.month, d.day - 1)
    else if d.month > 1 then Date(d.year, d.month - 1, DaysInMonth(d.year, d.month - 1))
    else Date(d.year - 1, 12, 31)
  }

  /** The calendar day after d. */
  function Tomorrow(d: Date): (t: Date)
    requires Valid(d) && d != Last
    ensures Valid(t)
  {
    if d.day < DaysInMonth(d.year, d.month) then Date(d.year, d.month, d.day + 1)
    else if d.month < 12 then Date(d.year, d.month + 1, 1)
    else Date(d.year + 1, 1, 1)
  }

  /** Going one day back and one day forward returns to the same day, and the other way round. */
  lemma YesterdayTomorrow(d: Date)
    requires Valid(d)
    ensures d != First ==> Yesterday(d) != Last && Tomorrow(Yesterday(d)) == d
    ensures d != Last ==> Tomorrow(d) != First && Yesterday(Tomorrow(d)) == d
  {
  }

  function DaysInYear(y: int): int {
    if IsLeapYear(y) then 366 else 365
  }

  /** The number of days in the years 0 .. y - 1. */
  function DaysBeforeYear(y: nat): nat {
    if y == 0 then 0 else DaysBeforeYear(y - 1) + DaysInYear(y - 1)
  }

  /** The number of days in the months 1 .. m - 1 of year y. */
  function DaysBeforeMonth(y: int, m: int): nat
    requires 1 <= m <= 13
  {
    if m == 1 then 0 else DaysBeforeMonth(y, m - 1) + DaysInMonth(y, m - 1)
  }

  /** The position of d in the calendar, counted in days from 0000-01-01. */
  function DayNumber(d: Date): nat
    requires Valid(d)
  {
    DaysBeforeYear(d.year) + DaysBeforeMonth(d.year, d.month) + d.day - 1
  }

  lemma MonthsMakeAYear(y: int)
    ensures DaysBeforeMonth(y, 13) == DaysInYear(y)
  {
    assert DaysBeforeMonth(y, 2) == 31;
    assert DaysBeforeMonth(y, 3) == 31 + DaysInMonth(y, 2);
    assert DaysBeforeMonth(y, 4) == DaysBeforeMonth(y, 3) + 31;
    assert DaysBeforeMonth(y, 5) == DaysBeforeMonth(y, 3) + 61;
    assert DaysBeforeMonth(y, 6) == DaysBeforeMonth(y, 3) + 92;
    assert DaysBeforeMonth(y, 7) == DaysBeforeMonth(y, 3) + 122;
    assert DaysBeforeMonth(y, 8) == DaysBeforeMonth(y, 3) + 153;
    assert DaysBeforeMonth(y, 9) == DaysBeforeMonth(y, 3) + 184;
    assert DaysBeforeMonth(y, 10) == DaysBeforeMonth(y, 3) + 214;
    assert DaysBeforeMonth(y, 11) == DaysBeforeMonth(y, 3) + 245;
    assert DaysBeforeMonth(y, 12) == DaysBeforeMonth(y, 3) + 275;
  }

  /** Yesterday is exactly one day earlier, across month and year boundaries and in leap years. */
  lemma YesterdayIsOneDayEarlier(d: Date)
    requires Valid(d) && d != First
    ensures DayNumber(Yesterday(d)) == DayNumber(d) - 1
  {
    if d.day == 1 && d.month == 1 {
      MonthsMakeAYear(d.year - 1);
    }
  }

  /** Calendar order. */
  predicate LessEq(a: Date, b: Date) {
    a.year < b.year || (a.year == b.year && (a.month < b.month || (a.month == b.month && a.day <= b.day)))
  }

  lemma {:induction false} DaysBeforeMonthGrows(y: int, m: int, n: int)
    requires 1 <= m <= n <= 13
    ensures DaysBeforeMonth(y, m) + (n - m) * 28 <= DaysBeforeMonth(y, n)
    decreases n - m
  {
    if m < n {
      DaysBeforeMonthGrows(y, m, n - 1);
    }
  }

  lemma {:induction false} DaysBeforeYearGrows(y: nat, z: nat)
    requires y <= z
    ensures DaysBeforeYear(y) + (z - y) * 365 <= DaysBeforeYear(z)
    decreases z - y
  {
    if y < z {
      DaysBeforeYearGrows(y, z - 1);
    }
  }

  /** Calendar order and day numbers agree: the day number is a faithful position in time. */
  lemma LessEqIffDayNumber(a: Date, b: Date)
    requires Valid(a) && Valid(b)
    ensures LessEq(a, b) <==> DayNumber(a) <= DayNumber(b)
  {
    if a.year < b.year {
      DaysBeforeYearGrows(a.year + 1, b.year);
      DaysBeforeMonthGrows(a.year, a.month, 13);
      MonthsMakeAYear(a.year);
    } else if b.year < a.year {
      DaysBeforeYearGrows(b.year + 1, a.year);
      DaysBeforeMonthGrows(b.year, b.month, 13);
      MonthsMakeAYear(b.year);
    } else if a.month < b.month {
      DaysBeforeMonthGrows(a.year, a.month + 1, b.month);
    } else if b.month < a.month {
      DaysBeforeMonthGrows(a.year, b.month + 1, a.month);
    }
  }

  /** The first day of d's month: `new Date(d.getFullYear(), d.getMonth(), 1)`. */
  function StartOfMonth(d: Date): Date {
    Date(d.year, d.month, 1)
  }

  /** January 1 of d's year: `new Date(d.getFullYear(), 0, 1)`. */
  function StartOfYear(d: Date): Date {
    Date(d.year, 1, 1)
  }

  /** The year starts no later than the month, and the month no later than the day itself. */
  lemma StartsPrecede(d: Date)
    requires Valid(d)
    ensures Valid(StartOfMonth(d)) && Valid(StartOfYear(d))
    ensures LessEq(StartOfYear(d), StartOfMonth(d)) && LessEq(StartOfMonth(d), d)
  {
  }

  /** `date.toISOString().split('T')[0]` for a date at midnight UTC. */
  function Format(d: Date): (s: string)
    requires Valid(d)
    ensures |s| == 10
  {
    PadDigits(d.year, 4) + "-" + PadDigits(d.month, 2) + "-" + PadDigits(d.day, 2)
  }

  /** The shape `YYYY-MM-DD`: four, two and two decimal digits separated by dashes. */
  predicate IsoShape(s: string) {
    |s| == 10 && s[4] == '-' && s[7] == '-' && AllDigits(s[..4]) && AllDigits(s[5..7]) && AllDigits(s[8..])
  }

  /** The year, month and day a `YYYY-MM-DD` text writes, whether or not that day exists. */
  function IsoFields(s: string): (d: Date)
    requires IsoShape(s)
    ensures 0 <= d.year <= 9999
  {
    DigitsValueBound(s[..4]);
    Date(DigitsValue(s[..4]), DigitsValue(s[5..7]), DigitsValue(s[8..]))
  }

  /** A text `new Date` reads: the ISO shape with a month from 1 to 12 and a day from 1 to 31. */
  predicate Readable(s: string) {
    IsoShape(s) && 1 <= IsoFields(s).month <= 12 && 1 <= IsoFields(s).day <= 31
  }

  /** A text that writes a day that exists. */
  predicate IsCalendarDate(s: string) {
    IsoShape(s) && Valid(IsoFields(s))
  }

  /** Day `day` of month m counted on from the first of the month: past the month's end it rolls into the next. */
  function RollOver(y: int, m: int, day: int): (d: Date)
    requires 0 <= y <= 9999 && 1 <= m <= 12 && 1 <= day <= 31
    ensures Valid(d)
  {
    if day <= DaysInMonth(y, m) then Date(y, m, day) else Date(y, m + 1, day - DaysInMonth(y, m))
  }

  /**
   * `new Date(text)` for a `YYYY-MM-DD` text: any month from 1 to 12 and any day
   * from 1 to 31 is read, a day past the month's end rolling into the next month;
   * None (an invalid date) for any other text.
   */
  function Parse(s: string): (r: Option<Date>)
    ensures r.Some? ==> Valid(r.value)
  {
    if Readable(s) then
      var f := IsoFields(s);
      Some(RollOver(f.year, f.month, f.day))
    else None
  }

  /**
   * A readable text denotes the day as many days after the first of its month as
   * its day number says, which is how `Date.UTC` counts; nothing else is read.
   */
  lemma ParseCountsDays(s: string)
    ensures Parse(s).Some? <==> Readable(s)
    ensures Parse(s).Some? ==>
      var f := IsoFields(s);
      && Valid(Date(f.year, f.month, 1))
      && DayNumber(Parse(s).value) == DayNumber(Date(f.year, f.month, 1)) + f.day - 1
  {
  }

  /** Any year, month and day of at most four, two and two digits are read back from their zero-padded text. */
  lemma WrittenFields(y: nat, m: nat, day: nat)
    requires y < 10000 && m < 100 && day < 100
    ensures var s := PadDigits(y, 4) + "-" + PadDigits(m, 2) + "-" + PadDigits(day, 2);
      IsoShape(s) && IsoFields(s) == Date(y, m, day)
  {
    var s := PadDigits(y, 4) + "-" + PadDigits(m, 2) + "-" + PadDigits(day, 2);
    assert s[..4] == PadDigits(y, 4);
    assert s[5..7] == PadDigits(m, 2);
    assert s[8..] == PadDigits(day, 2);
    PadDigitsValue(y, 4);
    PadDigitsValue(m, 2);
    PadDigitsValue(day, 2);
  }

  /** Reading back the printed form of a date gives the date. */
  lemma ParseFormat(d: Date)
    requires Valid(d)
    ensures IsCalendarDate(Format(d)) && IsoFields(Format(d)) == d
    ensures Parse(Format(d)) == Some(d)
  {
    WrittenFields(d.year, d.month, d.day);
  }

  /**
   * A text that reads as a date is printed back unchanged exactly when it writes a
   * day that exists; a day past the month's end is printed as the day it rolls to.
   */
  lemma FormatParse(s: string)
    requires Parse(s).Some?
    ensures Format(Parse(s).value) == s <==> IsCalendarDate(s)
  {
    var v := Parse(s).value;
    if IsCalendarDate(s) {
      assert v == IsoFields(s);
      PadDigitsOfValue(s[..4]);
      PadDigitsOfValue(s[5..7]);
      PadDigitsOfValue(s[8..]);
      assert s == s[..4] + "-" + s[5..7] + "-" + s[8..];
    } else if Format(v) == s {
      ParseFormat(v);
      assert false;
    }
  }

  /** 2023-02-29 is read as 2023-03-01, the day `new Date` rolls it to. */
  lemma ParseRollsOver()
    ensures Parse("2023-02-29") == Some(Date(2023, 3, 1))
  {
    var s := "2023-02-29";
    assert s[..4] == "2023" && s[5..7] == "02" && s[8..] == "29";
    assert DigitsValue("2023") == 2023 by {
      assert "2023"[..3] == "202" && "202"[..2] == "20" && "20"[..1] == "2" && "2"[..0] == "";
    }
    assert DigitsValue("02") == 2 by {
      assert "02"[..1] == "0" && "0"[..0] == "";
    }
    assert DigitsValue("29") == 29 by {
      assert "29"[..1] == "2" && "2"[..0] == "";
    }
  }

  /** A 32nd day is not read: `new Date` gives an invalid date. */
  lemma ParseRejectsDay32()
    ensures Parse("2024-02-32").None?
  {
    var s := "2024-02-32";
    assert s[8..] == "32";
    assert DigitsValue("32") == 32 by {
      assert "32"[..1] == "3" && "3"[..0] == "";
    }
  }
}
