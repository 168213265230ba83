/** Calendar dates as `java.time.LocalDate` holds them: a year, a month and
    a day of month, ordered year first, then month, then day. */
module Dates {
  import opened Formats

  datatype YearMonthDay = YearMonthDay(year: int, month: int, day: int)

  predicate IsLeapYear(year: int) {
    year % 4 == 0 && (year % 100 != 0 || year % 400 == 0)
  }

  function DaysInMonth(year: int, month: int): int
    requires 1 <= month <= 12
  {
    if month == 2 then (if IsLeapYear(year) then 29 else 28)
    else if month == 4 || month == 6 || month == 9 || month == 11 then 30
    else 31
  }

  predicate IsCalendarDate(d: YearMonthDay) {
    1 <= d.month <= 12 && 1 <= d.day <= DaysInMonth(d.year, d.month)
  }

  /** A date that exists in the proleptic Gregorian calendar. */
  type Date = d: YearMonthDay | IsCalendarDate(d) witness YearMonthDay(2025, 1, 1)

  /** `a.isBefore(b)`. */
  predicate IsBefore(a: Date, b: Date) {
    a.year < b.year || (a.year == b.year && (a.month < b.month || (a.month == b.month && a.day < b.day)))
  }

  /** `a.isAfter(b)`. */
  predicate IsAfter(a: Date, b: Date) {
    IsBefore(b, a)
  }

  /** The report filter: `!d.isBefore(start) && !d.isAfter(end)`. */
  predicate InRange(d: Date, start: Date, end: Date) {
    !IsBefore(d, start) && !IsAfter(d, end)
  }

  /** The order is strict and total, so a range holds exactly the dates
      from `start` to `end`, both included. */
  lemma InRangeIsInclusive(d: Date, start: Date, end: Date)
    ensures InRange(d, start, end) <==> (d == start || IsAfter(d, start)) && (d == end || IsBefore(d, end))
    ensures !IsBefore(d, d)
    ensures IsBefore(d, start) || d == start || IsAfter(d, start)
  {
  }

  /** Both bounds of a well-formed range lie in it; a range whose start is
      after its end holds no date. */
  lemma RangeBounds(start: Date, end: Date)
    ensures !IsAfter(start, end) ==> InRange(start, start, end) && InRange(end, start, end)
    ensures IsAfter(start, end) ==> forall d: Date {:trigger InRange(d, start, end)} :: !InRange(d, start, end)
  {
  }

  /** The year as `LocalDate.toString()` writes it: a year below 1000 in
      magnitude is padded to four digits (after a minus sign when
      negative); a year above 9999 carries a plus sign. */
  function YearText(y: int): (s: string)
    ensures '\n' !in s
  {
    var absYear := if y < 0 then -y else y;
    if absYear < 1000 then (if y < 0 then "-" else "") + NatToString(absYear + 10000)[1..]
    else (if y > 9999 then "+" else "") + IntToString(y)
  }

  /** `LocalDate.toString()`: the ISO form yyyy-MM-dd. */
  function IsoDate(d: Date): (s: string)
    ensures '\n' !in s
    ensures |s| >= 6 && s[|s| - 6] == '-' && s[|s| - 3] == '-'
    ensures IsDigits(s[|s| - 5..|s| - 3]) && DigitsValue(s[|s| - 5..|s| - 3]) == d.month
    ensures IsDigits(s[|s| - 2..]) && DigitsValue(s[|s| - 2..]) == d.day
  {
    var s := YearText(d.year) + "-" + TwoDigits(d.month) + "-" + TwoDigits(d.day);
    assert s[|s| - 5..|s| - 3] == TwoDigits(d.month);
    assert s[|s| - 2..] == TwoDigits(d.day);
    s
  }
}
