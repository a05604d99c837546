/**
 * Calendar arithmetic behind `new Date(...)`, `getDay()`, `setDate(...)` and the
 * "YYYY-MM" month keys. Dates are civil (year, month, day) triples in the
 * proleptic Gregorian calendar and day numbers count from 1970-01-01; time
 * zones are not modelled (every date is read in the zone it was written in).
 */
module Dates {
  import opened Base
  import opened Strings
  import opened JsNumber

  datatype Civil = Civil(year: int, month: int, day: int)

  predicate IsLeapYear(y: int) {
    (y % 4 == 0 && y % 100 != 0) || y % 400 == 0
  }

  function DaysInMonth(y: int, m: int): (n: int)
    requires 1 <= m <= 12
    ensures 28 <= n <= 31
  {
    if m == 2 then (if IsLeapYear(y) then 29 else 28)
    else if m == 4 || m == 6 || m == 9 || m == 11 then 30
    else 31
  }

  predicate ValidCivil(c: Civil) {
    1 <= c.month <= 12 && 1 <= c.day <= DaysInMonth(c.year, c.month)
  }

  /** Days from 1970-01-01 to the given civil date (negative before it). */
  function DayNumber(c: Civil): int
    requires 1 <= c.month <= 12
  {
    var y := if c.month <= 2 then c.year - 1 else c.year;
    var era := y / 400;
    var yoe := y % 400;
    var mp := if c.month > 2 then c.month - 3 else c.month + 9;
    var doy := (153 * mp + 2) / 5 + c.day - 1;
    var doe := yoe * 365 + yoe / 4 - yoe / 100 + doy;
    era * 146097 + doe - 719468
  }

  /** `getDay()`: 0 for Sunday up to 6 for Saturday; 1970-01-01 was a Thursday. */
  function WeekdayOfDayNumber(n: int): (w: int)
    ensures 0 <= w < 7
  {
    (n + 4) % 7
  }

  function Weekday(c: Civil): (w: int)
    requires 1 <= c.month <= 12
    ensures 0 <= w < 7
  {
    WeekdayOfDayNumber(DayNumber(c))
  }

  /** The next day of the same month is the next day number. */
  lemma DayNumberNextDay(c: Civil)
    requires 1 <= c.month <= 12
    ensures DayNumber(Civil(c.year, c.month, c.day + 1)) == DayNumber(c) + 1
  {
  }

  /** Anchors of the day count: the epoch, and 2025-01-01, a Wednesday. */
  lemma KnownDays()
    ensures DayNumber(Civil(1970, 1, 1)) == 0
    ensures Weekday(Civil(1970, 1, 1)) == 4
    ensures Weekday(Civil(2025, 1, 1)) == 3
  {
    assert DayNumber(Civil(1970, 1, 1)) == 0;
    assert DayNumber(Civil(2025, 1, 1)) == 20089;
  }

  // ---------------------------------------------------------------- weeks

  /** `getDay() || 7`: Monday 1 up to Sunday 7. */
  function IsoWeekday(n: int): (w: int)
    ensures 1 <= w <= 7
    ensures w % 7 == WeekdayOfDayNumber(n)
  {
    var d := WeekdayOfDayNumber(n);
    if d == 0 then 7 else d
  }

  /** The Monday of the week of day `n`: `setDate(getDate() - day + 1)`. */
  function MondayOf(n: int): (m: int)
    ensures m <= n <= m + 6
    ensures WeekdayOfDayNumber(m) == 1
  {
    n - IsoWeekday(n) + 1
  }

  /** Two days share a Monday exactly when they lie in the same Monday-to-Sunday week. */
  lemma SameWeekIff(a: int, b: int)
    ensures MondayOf(a) == MondayOf(b) <==> MondayOf(a) <= b <= MondayOf(a) + 6
  {
    var ma, mb := MondayOf(a), MondayOf(b);
    if ma <= b <= ma + 6 && ma != mb {
      MondaysApart(ma, mb);
    }
  }

  /** Distinct Mondays lie at least a week apart. */
  lemma MondaysApart(x: int, y: int)
    requires WeekdayOfDayNumber(x) == 1 && WeekdayOfDayNumber(y) == 1
    ensures (x - y) % 7 == 0
  {
  }

  /** A date's week key and its Sunday: the Monday of that week and six days later. */
  lemma SundayBelongsToPrecedingMonday(n: int)
    ensures WeekdayOfDayNumber(n) == 0 ==> MondayOf(n) == n - 6
  {
  }

  // ---------------------------------------------------------------- months

  datatype YearMonth = YearMonth(year: int, month: int)

  predicate ValidYearMonth(ym: YearMonth) { 1 <= ym.month <= 12 }

  /** Months since year 0, the order in which month starts compare. */
  function MonthIndex(ym: YearMonth): int { ym.year * 12 + ym.month - 1 }

  /** The year `new Date(y, ...)` uses: two-digit years 0..99 mean 1900..1999. */
  function JsFullYear(y: int): int {
    if 0 <= y <= 99 then 1900 + y else y
  }

  /** `new Date(y, monthIndex, 1)`: an out-of-range month index rolls into other years. */
  function MonthStart(y: int, monthIndex: int): (ym: YearMonth)
    ensures ValidYearMonth(ym)
    ensures MonthIndex(ym) == JsFullYear(y) * 12 + monthIndex
  {
    var t := JsFullYear(y) * 12 + monthIndex;
    YearMonth(t / 12, t % 12 + 1)
  }

  /** `${getFullYear()}-${String(getMonth() + 1).padStart(2, "0")}`. */
  function FormatMonthKey(ym: YearMonth): string
    requires ValidYearMonth(ym)
  {
    IntToString(ym.year) + "-" + PadStart2(NatToString(ym.month))
  }

  /** `key.split("-").map(Number)` keeping the first two numbers; `None` when either is `NaN`. */
  function ParseMonthKey(key: string): Option<(int, int)> {
    var parts := Split(key, '-');
    var y := NumberAsInt(parts[0]);
    var m := if |parts| >= 2 then NumberAsInt(parts[1]) else None;
    if y.Some? && m.Some? then Some((y.value, m.value)) else None
  }

  /** A month key written for a year from 0 on reads back as that year and month. */
  lemma ParseFormatMonthKey(ym: YearMonth)
    requires ValidYearMonth(ym) && ym.year >= 0
    ensures ParseMonthKey(FormatMonthKey(ym)) == Some((ym.year, ym.month))
  {
    var ys := IntToString(ym.year);
    var ms := PadStart2(NatToString(ym.month));
    NatToStringHasNo(ym.year, '-');
    NatToStringHasNo(ym.month, '-');
    assert '-' !in ms by {
      Pad2Value(ym.month);
      assert forall i :: 0 <= i < |ms| ==> IsDigit(ms[i]);
    }
    Split2(ys, ms, '-');
    assert FormatMonthKey(ym) == ys + ['-'] + ms;
    NumberOfIntString(ym.year);
    NumberOfPadded(ym.month);
  }

  /** `sumarMes` / `cambiarMes`: the key `delta` months away; an unreadable key gives "NaN-NaN". */
  function ShiftMonthKey(key: string, delta: int): (r: string)
  {
    ShiftParsed(ParseMonthKey(key), delta)
  }

  function ShiftParsed(p: Option<(int, int)>, delta: int): string {
    match p
    case None => "NaN-NaN"
    case Some((y, m)) => FormatMonthKey(MonthStart(y, m - 1 + delta))
  }

  /** Shifting a normalised month by `delta` moves its index by exactly `delta`. */
  lemma MonthStartShift(ym: YearMonth, delta: int)
    requires ValidYearMonth(ym) && ym.year >= 100
    ensures MonthIndex(MonthStart(ym.year, ym.month - 1 + delta)) == MonthIndex(ym) + delta
  {
  }

  /** A month start is determined by its index. */
  lemma MonthIndexInjective(a: YearMonth, b: YearMonth)
    requires ValidYearMonth(a) && ValidYearMonth(b) && MonthIndex(a) == MonthIndex(b)
    ensures a == b
  {
  }

  lemma SameMonthKey(a: YearMonth, b: YearMonth)
    requires ValidYearMonth(a) && ValidYearMonth(b) && MonthIndex(a) == MonthIndex(b)
    ensures FormatMonthKey(a) == FormatMonthKey(b)
  {
    MonthIndexInjective(a, b);
  }

  /** Shifting a well-formed key by `delta` gives the key of the month `delta` away. */
  lemma ShiftFormattedKey(ym: YearMonth, delta: int, target: YearMonth)
    requires ValidYearMonth(ym) && ym.year >= 0 && ValidYearMonth(target)
    requires MonthIndex(target) == JsFullYear(ym.year) * 12 + ym.month - 1 + delta
    ensures ShiftMonthKey(FormatMonthKey(ym), delta) == FormatMonthKey(target)
  {
    var k := FormatMonthKey(ym);
    ParseFormatMonthKey(ym);
    var p := ParseMonthKey(k);
    SameMonthKey(MonthStart(ym.year, ym.month - 1 + delta), target);
    assert ShiftParsed(p, delta) == FormatMonthKey(target);
  }

  /**
   * Going `delta` months forward and then back returns the original key, as long
   * as neither key falls in the years 0..99 that `new Date` reinterprets.
   */
  lemma ShiftMonthKeyRoundTrip(ym: YearMonth, delta: int, back: int)
    requires ValidYearMonth(ym) && ym.year >= 100
    requires MonthStart(ym.year, ym.month - 1 + delta).year >= 100
    requires back == -delta
    ensures ShiftMonthKey(ShiftMonthKey(FormatMonthKey(ym), delta), back) == FormatMonthKey(ym)
  {
    var there := MonthStart(ym.year, ym.month - 1 + delta);
    ShiftFormattedKey(ym, delta, there);
    ShiftFormattedKey(there, back, ym);
  }

  /** The two-digit year quirk: from January 100, one month back lands in 1999. */
  lemma ShiftMonthKeyTwoDigitYear()
    ensures MonthStart(100, -1) == YearMonth(99, 12)
    ensures MonthStart(99, 11) == YearMonth(1999, 12)
  {
  }

  // ---------------------------------------------------------------- full dates

  /** The "YYYY-MM-DD" string of a date. */
  function FormatDate(c: Civil): string
    requires ValidCivil(c)
  {
    FormatMonthKey(YearMonth(c.year, c.month)) + "-" + PadStart2(NatToString(c.day))
  }

  /** `fecha.split("-").map(Number)` keeping the first three numbers; `None` when one is `NaN` or missing. */
  function ParseDate(s: string): Option<Civil> {
    DateOfParts(Split(s, '-'))
  }

  function DateOfParts(parts: seq<string>): Option<Civil> {
    if |parts| < 3 then None
    else
      var y, m, d := NumberAsInt(parts[0]), NumberAsInt(parts[1]), NumberAsInt(parts[2]);
      if y.Some? && m.Some? && d.Some? then Some(Civil(y.value, m.value, d.value)) else None
  }

  lemma PaddedHasNoDash(n: nat)
    requires n < 100
    ensures '-' !in PadStart2(NatToString(n))
  {
    var p := PadStart2(NatToString(n));
    Pad2Value(n);
    assert forall i :: 0 <= i < |p| ==> IsDigit(p[i]);
  }

  /** A date written from year 0 on reads back as the same date. */
  lemma ParseFormatDate(c: Civil)
    requires ValidCivil(c) && c.year >= 0
    ensures ParseDate(FormatDate(c)) == Some(c)
  {
    var ys, ms, ds := IntToString(c.year), PadStart2(NatToString(c.month)), PadStart2(NatToString(c.day));
    NatToStringHasNo(c.year, '-');
    PaddedHasNoDash(c.month);
    PaddedHasNoDash(c.day);
    assert FormatDate(c) == ys + ['-'] + ms + ['-'] + ds;
    Split3(ys, ms, ds, '-');
    NumberOfIntString(c.year);
    NumberOfPadded(c.month);
    NumberOfPadded(c.day);
    var parts := Split(FormatDate(c), '-');
    assert parts == [ys, ms, ds];
    assert DateOfParts(parts) == Some(c);
  }

  /** Distinct dates have distinct strings. */
  lemma FormatDateInjective(a: Civil, b: Civil)
    requires ValidCivil(a) && ValidCivil(b) && a.year >= 0 && b.year >= 0
    requires FormatDate(a) == FormatDate(b)
    ensures a == b
  {
    ParseFormatDate(a);
    ParseFormatDate(b);
  }
}
