/**
 * The date arithmetic of the schedule page (`getMonday`, `addDays`,
 * `formatDate`), over JavaScript dates taken in one fixed time zone.
 *
 * A date is a whole number of days since 1970-01-01 plus the milliseconds
 * into that day. The civil calendar is the one ECMAScript defines in section
 * 21.4.1 of ECMA-262 (DayFromYear, YearFromTime, MonthFromTime, DateFromTime,
 * WeekDay), and `formatDate` renders the calendar date part of the Date Time
 * String Format of section 21.4.1.32, which for years 0 to 9999 is the
 * ISO 8601 extended calendar date `YYYY-MM-DD`.
 */
module Calendar {
  import opened Wrappers
  import opened Text

  const MsPerDay: int := 86_400_000

  type TimeInDay = t: int | 0 <= t < 86_400_000

  /** A JavaScript `Date` in the page's time zone: the day number and the time within that day. */
  datatype Instant = Instant(day: int, time: TimeInDay)

  const Sunday: int := 0
  const Monday: int := 1

  /** ECMAScript WeekDay: 0 is Sunday; 1970-01-01 was a Thursday. */
  function WeekDay(day: int): (w: int)
    ensures 0 <= w < 7
  {
    (day + 4) % 7
  }

  // ---------------------------------------------------------------------
  // Years (ECMA-262 section 21.4.1.3)

  function DaysInYear(y: int): (n: int)
    ensures n == 365 || n == 366
  {
    if y % 4 != 0 then 365
    else if y % 100 != 0 then 366
    else if y % 400 != 0 then 365
    else 366
  }

  /** The day number of the first day of year `y`. */
  function DayFromYear(y: int): int {
    365 * (y - 1970) + (y - 1969) / 4 - (y - 1901) / 100 + (y - 1601) / 400
  }

  /** 1 in a leap year, 0 otherwise (ECMAScript InLeapYear). */
  function LeapDay(y: int): (l: int)
    ensures l == DaysInYear(y) - 365
  {
    if DaysInYear(y) == 366 then 1 else 0
  }

  /** Consecutive years are exactly one year's length apart. */
  lemma DayFromYearStep(y: int)
    ensures DayFromYear(y + 1) == DayFromYear(y) + DaysInYear(y)
  {
    LeapStep4(y);
    LeapStep100(y);
    LeapStep400(y);
    DivisorChain(y);
    var d4, d100, d400 := (y - 1968) / 4 - (y - 1969) / 4, (y - 1900) / 100 - (y - 1901) / 100,
      (y - 1600) / 400 - (y - 1601) / 400;
    assert DaysInYear(y) == 365 + d4 - d100 + d400;
  }

  /** A year divisible by 400 is divisible by 100, and one divisible by 100 is divisible by 4. */
  lemma DivisorChain(y: int)
    ensures y % 400 == 0 ==> y % 100 == 0
    ensures y % 100 == 0 ==> y % 4 == 0
  {
    var q400, q100 := y / 400, y / 100;
    if y % 400 == 0 {
      assert y == 400 * q400;
      assert y == 100 * (4 * q400) + 0;
    }
    if y % 100 == 0 {
      assert y == 100 * q100;
      assert y == 4 * (25 * q100) + 0;
    }
  }

  /** Each of the three terms of DayFromYear grows by one exactly at the years its divisor divides. */
  lemma LeapStep4(y: int)
    ensures (y - 1968) / 4 - (y - 1969) / 4 == if y % 4 == 0 then 1 else 0
  {
    var a := y - 1969;
    assert (a + 1) / 4 - a / 4 == if (a + 1) % 4 == 0 then 1 else 0;
  }

  lemma LeapStep100(y: int)
    ensures (y - 1900) / 100 - (y - 1901) / 100 == if y % 100 == 0 then 1 else 0
  {
    var b := y - 1901;
    assert (b + 1) / 100 - b / 100 == if (b + 1) % 100 == 0 then 1 else 0;
  }

  lemma LeapStep400(y: int)
    ensures (y - 1600) / 400 - (y - 1601) / 400 == if y % 400 == 0 then 1 else 0
  {
    var c := y - 1601;
    assert (c + 1) / 400 - c / 400 == if (c + 1) % 400 == 0 then 1 else 0;
  }

  lemma {:induction false} DayFromYearMonotone(a: int, b: int)
    requires a <= b
    ensures DayFromYear(a) <= DayFromYear(b)
    decreases b - a
  {
    if a < b {
      DayFromYearStep(a);
      DayFromYearMonotone(a + 1, b);
    }
  }

  /** Search upwards from year `y` for the year that holds day `n`. */
  function YearUp(n: int, y: int): (r: int)
    requires DayFromYear(y) <= n
    ensures DayFromYear(r) <= n < DayFromYear(r + 1)
    decreases n - DayFromYear(y)
  {
    DayFromYearStep(y);
    if n < DayFromYear(y + 1) then y else YearUp(n, y + 1)
  }

  /** Search downwards from year `y` for the year that holds day `n`. */
  function YearDown(n: int, y: int): (r: int)
    requires n < DayFromYear(y + 1)
    ensures DayFromYear(r) <= n < DayFromYear(r + 1)
    decreases DayFromYear(y + 1) - n
  {
    DayFromYearStep(y);
    if DayFromYear(y) <= n then y else YearDown(n, y - 1)
  }

  /** ECMAScript YearFromTime: the greatest year whose first day is not after day `n`. */
  function YearFromDay(n: int): (y: int)
    ensures DayFromYear(y) <= n < DayFromYear(y + 1)
  {
    if n >= 0 then YearUp(n, 1970) else YearDown(n, 1969)
  }

  /** The year holding a day is the only year whose span contains it. */
  lemma YearFromDayUnique(n: int, y: int)
    requires DayFromYear(y) <= n < DayFromYear(y + 1)
    ensures YearFromDay(n) == y
  {
    YearSpansDisjoint(n, YearFromDay(n), y);
  }

  /** Two years whose spans both contain day `n` are the same year. */
  lemma YearSpansDisjoint(n: int, r: int, y: int)
    requires DayFromYear(r) <= n < DayFromYear(r + 1)
    requires DayFromYear(y) <= n < DayFromYear(y + 1)
    ensures r == y
  {
    if r < y {
      DayFromYearMonotone(r + 1, y);
    } else if r > y {
      DayFromYearMonotone(y + 1, r);
    }
  }

  // ---------------------------------------------------------------------
  // Months and days of the month (ECMA-262 sections 21.4.1.4 and 21.4.1.5)

  /** Days of the year before month `m` (0-based; 12 gives the year's length). */
  function DaysBeforeMonth(m: int, leap: int): int
    requires 0 <= m <= 12
  {
    [0, 31, 59, 90, 120, 151, 181, 212, 243, 273, 304, 334, 365][m] + (if m >= 2 then leap else 0)
  }

  /** ECMAScript MonthFromTime, given the day within the year; 0 is January. */
  function MonthInYear(dayInYear: int, leap: int): (m: int)
    requires 0 <= leap <= 1 && 0 <= dayInYear < 365 + leap
    ensures 0 <= m < 12
    ensures DaysBeforeMonth(m, leap) <= dayInYear < DaysBeforeMonth(m + 1, leap)
  {
    if dayInYear < 31 then 0
    else if dayInYear < 59 + leap then 1
    else if dayInYear < 90 + leap then 2
    else if dayInYear < 120 + leap then 3
    else if dayInYear < 151 + leap then 4
    else if dayInYear < 181 + leap then 5
    else if dayInYear < 212 + leap then 6
    else if dayInYear < 243 + leap then 7
    else if dayInYear < 273 + leap then 8
    else if dayInYear < 304 + leap then 9
    else if dayInYear < 334 + leap then 10
    else 11
  }

  lemma DaysBeforeMonthMonotone(a: int, b: int, leap: int)
    requires 0 <= a < b <= 12 && 0 <= leap <= 1
    ensures DaysBeforeMonth(a, leap) < DaysBeforeMonth(b, leap)
  {
  }

  /** A day of the year lies in exactly one month. */
  lemma MonthInYearUnique(dayInYear: int, leap: int, m: int)
    requires 0 <= leap <= 1 && 0 <= m < 12
    requires DaysBeforeMonth(m, leap) <= dayInYear < DaysBeforeMonth(m + 1, leap)
    ensures 0 <= dayInYear < 365 + leap && MonthInYear(dayInYear, leap) == m
  {
    if m < 11 {
      DaysBeforeMonthMonotone(m + 1, 12, leap);
    }
    var r := MonthInYear(dayInYear, leap);
    if r < m {
      DaysBeforeMonthMonotone(r + 1, m, leap);
    } else if r > m {
      DaysBeforeMonthMonotone(m + 1, r, leap);
    }
  }

  /** A year, a month from 1 to 12 and a day of the month from 1. */
  datatype CivilDate = CivilDate(year: int, month: int, day: int)

  function DaysInMonth(year: int, month: int): int
    requires 1 <= month <= 12
  {
    DaysBeforeMonth(month, LeapDay(year)) - DaysBeforeMonth(month - 1, LeapDay(year))
  }

  predicate ValidCivil(c: CivilDate) {
    1 <= c.month <= 12 && 1 <= c.day <= DaysInMonth(c.year, c.month)
  }

  /** ECMAScript MakeDay for a valid civil date: the day number it names. */
  function FromCivil(c: CivilDate): int
    requires ValidCivil(c)
  {
    DayFromYear(c.year) + DaysBeforeMonth(c.month - 1, LeapDay(c.year)) + c.day - 1
  }

  /** The civil date of a day number (YearFromTime, MonthFromTime + 1, DateFromTime). */
  function ToCivil(n: int): (c: CivilDate)
    ensures ValidCivil(c) && FromCivil(c) == n
  {
    var y := YearFromDay(n);
    DayFromYearStep(y);
    var l := LeapDay(y);
    var dayInYear := n - DayFromYear(y);
    var m := MonthInYear(dayInYear, l);
    assert DaysInMonth(y, m + 1) == DaysBeforeMonth(m + 1, l) - DaysBeforeMonth(m, l);
    CivilDate(y, m + 1, dayInYear - DaysBeforeMonth(m, l) + 1)
  }

  /** Every valid civil date is the civil date of the day it names: ToCivil and FromCivil are inverse. */
  lemma CivilRoundTrip(c: CivilDate)
    requires ValidCivil(c)
    ensures ToCivil(FromCivil(c)) == c
  {
    var n := FromCivil(c);
    CivilYear(c);
    CivilMonth(c);
    assert ToCivil(n) == CivilDate(c.year, c.month, n - DayFromYear(c.year) - DaysBeforeMonth(c.month - 1, LeapDay(c.year)) + 1);
  }

  /** The day a valid civil date names lies in that date's year. */
  lemma CivilYear(c: CivilDate)
    requires ValidCivil(c)
    ensures YearFromDay(FromCivil(c)) == c.year
  {
    DayFromYearStep(c.year);
    if c.month < 12 {
      DaysBeforeMonthMonotone(c.month, 12, LeapDay(c.year));
    }
    YearFromDayUnique(FromCivil(c), c.year);
  }

  /** Within its year, the day a valid civil date names lies in that date's month. */
  lemma CivilMonth(c: CivilDate)
    requires ValidCivil(c)
    ensures var d := FromCivil(c) - DayFromYear(c.year);
      0 <= d < 365 + LeapDay(c.year) && MonthInYear(d, LeapDay(c.year)) == c.month - 1
  {
    MonthInYearUnique(FromCivil(c) - DayFromYear(c.year), LeapDay(c.year), c.month - 1);
  }

  // ---------------------------------------------------------------------
  // The schedule page's helpers

  /** `getMonday(date)`: back to the Monday of the date's week, at midnight; a Sunday belongs to the week before. */
  function GetMonday(d: Instant): (m: Instant)
    ensures WeekDay(m.day) == Monday && m.time == 0
    ensures m.day <= d.day <= m.day + 6
    ensures WeekDay(d.day) == Sunday ==> m.day == d.day - 6
  {
    var day := WeekDay(d.day);
    var diff := -day + (if day == 0 then -6 else 1);
    Instant(d.day + diff, 0)
  }

  /** The Monday of a date's week is the only Monday among it and the six days before it. */
  lemma GetMondayUnique(d: Instant, m: int)
    requires WeekDay(m) == Monday && m <= d.day <= m + 6
    ensures GetMonday(d).day == m
  {
    var r := GetMonday(d).day;
    assert (r - m) % 7 == 0 by {
      assert (r + 4) % 7 == (m + 4) % 7;
    }
  }

  /** `getMonday` is idempotent. */
  lemma GetMondayIdempotent(d: Instant)
    ensures GetMonday(GetMonday(d)) == GetMonday(d)
  {
    GetMondayUnique(GetMonday(d), GetMonday(d).day);
  }

  /** `addDays(date, n)`: the same time of day, `n` days later (earlier when `n` is negative). */
  function AddDays(d: Instant, n: int): (r: Instant)
    ensures r.time == d.time
    ensures WeekDay(r.day) == (WeekDay(d.day) + n) % 7
    ensures r.day - d.day == n
  {
    Instant(d.day + n, d.time)
  }

  lemma AddDaysAdditive(d: Instant, a: int, b: int)
    ensures AddDays(AddDays(d, a), b) == AddDays(d, a + b)
    ensures AddDays(d, 0) == d
  {
  }

  /** A week start: a Monday at midnight, as `getMonday` returns. */
  predicate IsWeekStart(d: Instant) {
    WeekDay(d.day) == Monday && d.time == 0
  }

  /** Moving by whole weeks keeps a week start a week start. */
  lemma ShiftByWeeks(d: Instant, weeks: int)
    requires IsWeekStart(d)
    ensures IsWeekStart(AddDays(d, 7 * weeks))
  {
  }

  /** The last day of the week shown, `addDays(weekStart, 6)`, is a Sunday. */
  lemma WeekEndIsSunday(w: Instant)
    requires IsWeekStart(w)
    ensures WeekDay(AddDays(w, 6).day) == Sunday
  {
  }

  // ---------------------------------------------------------------------
  // formatDate and its inverse

  /** The year field of the Date Time String Format: four digits, or a sign and six digits outside 0..9999. */
  function IsoYear(y: int): string {
    if 0 <= y <= 9999 then PadStart(y, 4)
    else if y < 0 then "-" + PadStart(-y, 6)
    else "+" + PadStart(y, 6)
  }

  /** `formatDate(date)`: `date.toISOString().split("T")[0]`, the calendar date part. */
  function FormatDate(d: Instant): string {
    FormatCivil(ToCivil(d.day))
  }

  /** A civil date's fields, zero-padded and joined by '-'. */
  function FormatCivil(c: CivilDate): string
    requires ValidCivil(c)
  {
    IsoYear(c.year) + "-" + PadStart(c.month, 2) + "-" + PadStart(c.day, 2)
  }

  /** In years 0 to 9999 a formatted date is ten characters, `YYYY-MM-DD`, each field its zero-padded value. */
  lemma {:induction false} FormatDateParts(d: Instant)
    requires 0 <= ToCivil(d.day).year <= 9999
    ensures |FormatDate(d)| == 10 && FormatDate(d)[4] == '-' && FormatDate(d)[7] == '-'
    ensures FormatDate(d)[..4] == PadStart(ToCivil(d.day).year, 4)
    ensures FormatDate(d)[5..7] == PadStart(ToCivil(d.day).month, 2)
    ensures FormatDate(d)[8..] == PadStart(ToCivil(d.day).day, 2)
  {
    FormatCivilParts(ToCivil(d.day));
  }

  lemma FormatCivilParts(c: CivilDate)
    requires ValidCivil(c) && 0 <= c.year <= 9999
    ensures var s := FormatCivil(c);
      && |s| == 10 && s[4] == '-' && s[7] == '-'
      && s[..4] == PadStart(c.year, 4) && s[5..7] == PadStart(c.month, 2) && s[8..] == PadStart(c.day, 2)
  {
    DaysInMonthBound(c.year, c.month);
    assert Pow10(4) == 10000 && Pow10(2) == 100;
    DecimalFits(c.year, 4);
    DecimalFits(c.month, 2);
    DecimalFits(c.day, 2);
    DateFields(PadStart(c.year, 4), PadStart(c.month, 2), PadStart(c.day, 2));
  }

  lemma DaysInMonthBound(year: int, month: int)
    requires 1 <= month <= 12
    ensures DaysInMonth(year, month) <= 31
  {
  }

  lemma DateFields(y: string, m: string, d: string)
    requires |y| == 4 && |m| == 2 && |d| == 2
    ensures var s := y + "-" + m + "-" + d;
      |s| == 10 && s[4] == '-' && s[7] == '-' && s[..4] == y && s[5..7] == m && s[8..] == d
  {
  }

  /** Reads a `YYYY-MM-DD` calendar date back to its day number; None when it names no date. */
  function ParseIsoDate(s: string): Option<int> {
    if |s| == 10 && s[4] == '-' && s[7] == '-'
      && AllDigits(s[..4]) && AllDigits(s[5..7]) && AllDigits(s[8..]) then
      var c := CivilDate(ParseDigits(s[..4]), ParseDigits(s[5..7]), ParseDigits(s[8..]));
      if ValidCivil(c) then Some(FromCivil(c)) else None
    else None
  }

  /** Reading a formatted date gives the day back, so `formatDate` loses nothing in years 0 to 9999. */
  lemma ParseFormatDate(d: Instant)
    requires 0 <= ToCivil(d.day).year <= 9999
    ensures ParseIsoDate(FormatDate(d)) == Some(d.day)
  {
    var c := ToCivil(d.day);
    FormatDateParts(d);
    ParsePadStart(c.year, 4);
    ParsePadStart(c.month, 2);
    ParsePadStart(c.day, 2);
  }

  /** Every string that reads as a date is exactly what `formatDate` writes for that date. */
  lemma FormatParsedDate(s: string, n: int, t: TimeInDay)
    requires ParseIsoDate(s) == Some(n)
    ensures FormatDate(Instant(n, t)) == s
  {
    var c := CivilDate(ParseDigits(s[..4]), ParseDigits(s[5..7]), ParseDigits(s[8..]));
    FormatDateOf(Instant(n, t), c);
    FormatCivilOfFields(s, c);
  }

  /** A string of the `YYYY-MM-DD` shape is the formatting of the civil date its fields read as. */
  lemma FormatCivilOfFields(s: string, c: CivilDate)
    requires |s| == 10 && s[4] == '-' && s[7] == '-'
    requires AllDigits(s[..4]) && AllDigits(s[5..7]) && AllDigits(s[8..])
    requires c == CivilDate(ParseDigits(s[..4]), ParseDigits(s[5..7]), ParseDigits(s[8..]))
    requires ValidCivil(c)
    ensures FormatCivil(c) == s
  {
    PadStartOfParse(s[..4]);
    PadStartOfParse(s[5..7]);
    PadStartOfParse(s[8..]);
    DecimalBelow(c.year, 4);
    assert IsoYear(c.year) == s[..4];
    assert s == s[..4] + "-" + s[5..7] + "-" + s[8..];
  }

  /** Two days with four-digit years that format alike are the same day. */
  lemma FormatDateInjective(a: Instant, b: Instant)
    requires 0 <= ToCivil(a.day).year <= 9999 && 0 <= ToCivil(b.day).year <= 9999
    requires FormatDate(a) == FormatDate(b)
    ensures a.day == b.day
  {
    ParseFormatDate(a);
    ParseFormatDate(b);
  }

  /** The day a valid civil date names formats as that civil date. */
  lemma FormatDateOf(d: Instant, c: CivilDate)
    requires ValidCivil(c) && FromCivil(c) == d.day
    ensures FormatDate(d) == FormatCivil(c)
  {
    CivilRoundTrip(c);
  }

  /** 2024-01-01 is a Monday, day 19723, and `formatDate` writes it as "2024-01-01". */
  lemma FirstWeekOf2024Start(w: Instant)
    requires w == Instant(19723, 0)
    ensures IsWeekStart(w)
    ensures FormatDate(w) == "2024-01-01"
  {
    var first := CivilDate(2024, 1, 1);
    FormatDateOf(w, first);
    FirstWeekOf2024Text();
  }

  /** The week starting 2024-01-01 ends on the Sunday `formatDate` writes as "2024-01-07". */
  lemma FirstWeekOf2024End(w: Instant)
    requires w == Instant(19723, 0)
    ensures WeekDay(AddDays(w, 6).day) == Sunday
    ensures FormatDate(AddDays(w, 6)) == "2024-01-07"
  {
    assert IsWeekStart(w);
    WeekEndIsSunday(w);
    var last := CivilDate(2024, 1, 7);
    FormatDateOf(AddDays(w, 6), last);
    FirstWeekOf2024Text();
  }

  lemma FirstWeekOf2024Text()
    ensures FormatCivil(CivilDate(2024, 1, 1)) == "2024-01-01"
    ensures FormatCivil(CivilDate(2024, 1, 7)) == "2024-01-07"
  {
    Year2024Text();
    OneDigitText(1, '1');
    OneDigitText(7, '7');
    assert IsoYear(2024) == "2024";
  }

  lemma Year2024Text()
    ensures PadStart(2024, 4) == "2024"
  {
    assert Decimal(2) == "2";
    assert Decimal(20) == "20";
    assert Decimal(202) == "202";
    assert Decimal(2024) == "2024";
  }

  /** A one-digit day or month is written with a leading zero. */
  lemma OneDigitText(k: nat, c: char)
    requires k < 10 && c as int == '0' as int + k
    ensures PadStart(k, 2) == ['0', c]
  {
    assert Decimal(k) == [c];
    assert Zeros(1) == "0";
  }
}
