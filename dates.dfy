/** The calendar part of the date helpers: the default range of the current
    year, quarter ranges and month ranges. The `Date` objects the source
    builds are modelled as the local calendar fields they are constructed
    from; their conversion to UTC text is not part of this model. */
module Dates {
  import opened Wrappers
  import opened Text

  /** A range of ISO timestamps as text. */
  datatype TextRange = TextRange(since: string, until: string)

  const YearStart := "-01-01T00:00:00Z"
  const YearEnd := "-12-31T23:59:59Z"

  /** `getDefaultDateRange()` for the current year, which the caller reads
      from the clock: from the first second of 1 January to the last second
      of 31 December. The year is read back from the front of both texts,
      and both carry a time part. */
  function DefaultDateRange(year: int): (r: TextRange)
    ensures ParseInt(r.since) == Some(year) && ParseInt(r.until) == Some(year)
    ensures |r.since| > |YearStart| && r.since[|r.since| - |YearStart|..] == YearStart
    ensures |r.until| > |YearEnd| && r.until[|r.until| - |YearEnd|..] == YearEnd
    ensures 'T' in r.since && 'T' in r.until
  {
    var y := IntToString(year);
    assert YearStart[0] == '-' && YearStart[6] == 'T';
    assert YearEnd[0] == '-' && YearEnd[6] == 'T';
    StampReadsBack(year, YearStart);
    StampReadsBack(year, YearEnd);
    TextRange(y + YearStart, y + YearEnd)
  }

  /** A year followed by a text that starts with a non-digit and has a
      time marker `T` reads back as that year and keeps the text as its
      end. */
  lemma StampReadsBack(year: int, rest: string)
    requires |rest| > 6 && !IsDigit(rest[0]) && rest[6] == 'T'
    ensures var s := IntToString(year) + rest;
      && ParseInt(s) == Some(year) && |s| > |rest| && s[|s| - |rest|..] == rest && 'T' in s
  {
    var s := IntToString(year) + rest;
    ParseIntReadsDecimalPrefix(year, rest);
    assert s[|IntToString(year)| + 6] == 'T';
  }

  /** Local calendar fields, the month counted from 0 as `Date` does. */
  datatype DateTime = DateTime(year: int, month: int, day: int, hour: int, minute: int, second: int)

  datatype Range = Range(since: DateTime, until: DateTime)

  /** Strictly earlier, field by field. */
  predicate Before(a: DateTime, b: DateTime) {
    if a.year != b.year then a.year < b.year
    else if a.month != b.month then a.month < b.month
    else if a.day != b.day then a.day < b.day
    else if a.hour != b.hour then a.hour < b.hour
    else if a.minute != b.minute then a.minute < b.minute
    else a.second < b.second
  }

  /** The `Date` constructor reads the years 0 to 99 as 1900 to 1999. */
  function FullYear(y: int): int {
    if 0 <= y <= 99 then 1900 + y else y
  }

  /** Gregorian leap years. */
  predicate IsLeapYear(y: int) {
    y % 4 == 0 && (y % 100 != 0 || y % 400 == 0)
  }

  /** Days in the month with 0-based index `m`. */
  function DaysInMonth(y: int, m: int): (d: int)
    requires 0 <= m < 12
    ensures 28 <= d <= 31
    ensures m == 1 ==> (d == 29 <==> IsLeapYear(y))
  {
    if m == 1 then (if IsLeapYear(y) then 29 else 28)
    else if m == 3 || m == 5 || m == 8 || m == 10 then 30
    else 31
  }

  /** `new Date(year, month, day, hour, minute, second)` for fields already
      in range. */
  function LocalDate(year: int, month: int, day: int, hour: int, minute: int, second: int): DateTime {
    DateTime(FullYear(year), month, day, hour, minute, second)
  }

  datatype MonthDay = MonthDay(month: int, day: int)

  const QuarterStarts: seq<MonthDay> := [MonthDay(0, 1), MonthDay(3, 1), MonthDay(6, 1), MonthDay(9, 1)]
  const QuarterEnds: seq<MonthDay> := [MonthDay(2, 31), MonthDay(5, 30), MonthDay(8, 30), MonthDay(11, 31)]

  /** `getQuarterDates(year, quarter)`: quarter `q` runs from the start of
      1 January, April, July or October to 23:59:59 on the last day of the
      quarter's third month; any other quarter number is rejected. */
  function QuarterDates(year: int, quarter: int): (r: Result<Range, string>)
    ensures r.Success? <==> 1 <= quarter <= 4
    ensures r.Failure? ==> r.error == "Invalid quarter: " + IntToString(quarter)
    ensures r.Success? ==>
      var y := FullYear(year);
      && r.value.since == DateTime(y, 3 * (quarter - 1), 1, 0, 0, 0)
      && r.value.until == DateTime(y, 3 * quarter - 1, DaysInMonth(y, 3 * quarter - 1), 23, 59, 59)
      && Before(r.value.since, r.value.until)
  {
    if 1 <= quarter <= 4 then
      var start := QuarterStarts[quarter - 1];
      var end := QuarterEnds[quarter - 1];
      Success(Range(LocalDate(year, start.month, start.day, 0, 0, 0), LocalDate(year, end.month, end.day, 23, 59, 59)))
    else
      Failure("Invalid quarter: " + IntToString(quarter))
  }

  /** `new Date(year, month, 0).getDate()` for a 1-based `month`: day 0 of
      the month after is the last day of `month`. */
  function LastDayOf(year: int, month: int): int
    requires 1 <= month <= 12
  {
    DaysInMonth(FullYear(year), month - 1)
  }

  /** `getMonthDates(year, month)`: a month number outside 1 to 12 is
      rejected; otherwise the month runs from the start of its first day to
      23:59:59 on its last day, February having 29 days exactly in leap
      years. */
  function MonthDates(year: int, month: int): (r: Result<Range, string>)
    ensures r.Success? <==> 1 <= month <= 12
    ensures r.Failure? ==> r.error == "Invalid month: " + IntToString(month)
    ensures r.Success? ==>
      var y := FullYear(year);
      && r.value.since == DateTime(y, month - 1, 1, 0, 0, 0)
      && r.value.until.year == y && r.value.until.month == month - 1
      && (r.value.until.hour, r.value.until.minute, r.value.until.second) == (23, 59, 59)
      && (month == 2 ==> (r.value.until.day == 29 <==> IsLeapYear(y)))
      && (month != 2 ==> r.value.until.day == if month in {4, 6, 9, 11} then 30 else 31)
      && Before(r.value.since, r.value.until)
  {
    if month < 1 || month > 12 then
      Failure("Invalid month: " + IntToString(month))
    else
      var lastDay := LastDayOf(year, month);
      Success(Range(LocalDate(year, month - 1, 1, 0, 0, 0), LocalDate(year, month - 1, lastDay, 23, 59, 59)))
  }

  /** A quarter starts where its first month starts and ends where its
      third month ends. */
  lemma QuarterSpansItsMonths(year: int, quarter: int)
    requires 1 <= quarter <= 4
    ensures MonthDates(year, 3 * quarter - 2).Success? && MonthDates(year, 3 * quarter).Success?
    ensures QuarterDates(year, quarter).value.since == MonthDates(year, 3 * quarter - 2).value.since
    ensures QuarterDates(year, quarter).value.until == MonthDates(year, 3 * quarter).value.until
  {
  }
}
