/**
 * The part of java.time.LocalDate the engine uses: ISO dates, their order,
 * withMonth, withDayOfMonth and plusYears/minusYears.
 */
module Dates {
  import opened Common

  datatype YearMonthDay = YearMonthDay(year: int, month: int, day: int)

  predicate IsLeapYear(year: int) {
    year % 4 == 0 && (year % 100 != 0 || year % 400 == 0)
  }

  function LengthOfMonth(year: int, month: int): (n: int)
    requires 1 <= month <= 12
    ensures 28 <= n <= 31
    ensures n == 29 <==> month == 2 && IsLeapYear(year)
  {
    if month == 2 then (if IsLeapYear(year) then 29 else 28)
    else if month == 4 || month == 6 || month == 9 || month == 11 then 30
    else 31
  }

  predicate IsValid(d: YearMonthDay) {
    1 <= d.month <= 12 && 1 <= d.day <= LengthOfMonth(d.year, d.month)
  }

  /** A LocalDate: a day that exists in the proleptic Gregorian calendar. */
  type Date = d: YearMonthDay | IsValid(d) witness YearMonthDay(2000, 1, 1)

  /** LocalDate.isBefore: chronological, that is lexicographic on (year, month, day). */
  predicate IsBefore(a: Date, b: Date) {
    || a.year < b.year
    || (a.year == b.year && a.month < b.month)
    || (a.year == b.year && a.month == b.month && a.day < b.day)
  }

  /** LocalDate.isAfter. */
  predicate IsAfter(a: Date, b: Date) {
    IsBefore(b, a)
  }

  /** Chronological order is a strict total order. */
  lemma IsBeforeTotal(a: Date, b: Date)
    ensures !IsBefore(a, a)
    ensures IsBefore(a, b) ==> !IsBefore(b, a)
    ensures a == b || IsBefore(a, b) || IsBefore(b, a)
  {
  }

  lemma IsBeforeTransitive(a: Date, b: Date, c: Date)
    requires IsBefore(a, b) && IsBefore(b, c)
    ensures IsBefore(a, c)
  {
  }

  predicate IsLeapDay(d: Date) {
    d.month == 2 && d.day == 29
  }

  /** LocalDate.withMonth: the day is kept, or clamped to the last day of the new month. */
  function WithMonth(d: Date, month: int): (r: Date)
    requires 1 <= month <= 12
    ensures r.year == d.year && r.month == month
    ensures d.day <= LengthOfMonth(d.year, month) ==> r.day == d.day
    ensures d.day > LengthOfMonth(d.year, month) ==> r.day == LengthOfMonth(d.year, month)
  {
    var n := LengthOfMonth(d.year, month);
    YearMonthDay(d.year, month, if d.day <= n then d.day else n)
  }

  /** LocalDate.withDayOfMonth: a day that the month does not have raises DateTimeException. */
  function WithDayOfMonth(d: Date, day: int): (r: Result<Date>)
    ensures r.Success? <==> 1 <= day <= LengthOfMonth(d.year, d.month)
    ensures r.Success? ==> r.value == YearMonthDay(d.year, d.month, day)
    ensures r.Failure? ==> r.error == DateTimeError
  {
    if 1 <= day <= LengthOfMonth(d.year, d.month) then Success(YearMonthDay(d.year, d.month, day))
    else Failure(DateTimeError)
  }

  /** LocalDate.plusYears: same month and day, except that 29 February becomes 28 February in a common year. */
  function PlusYears(d: Date, years: int): (r: Date)
    ensures r.year == d.year + years && r.month == d.month
    ensures !IsLeapDay(d) || IsLeapYear(d.year + years) ==> r.day == d.day
    ensures IsLeapDay(d) && !IsLeapYear(d.year + years) ==> r.day == 28
  {
    var y := d.year + years;
    YearMonthDay(y, d.month, if d.day <= LengthOfMonth(y, d.month) then d.day else LengthOfMonth(y, d.month))
  }

  /** LocalDate.minusYears: the same clamping as plusYears, going back. */
  function MinusYears(d: Date, years: int): (r: Date)
    ensures r.year == d.year - years && r.month == d.month
    ensures !IsLeapDay(d) || IsLeapYear(d.year - years) ==> r.day == d.day
    ensures IsLeapDay(d) && !IsLeapYear(d.year - years) ==> r.day == 28
  {
    PlusYears(d, -years)
  }

  /** Adding a positive number of years always gives a later date. */
  lemma PlusYearsIsLater(d: Date, years: int)
    requires years >= 1
    ensures IsBefore(d, PlusYears(d, years))
  {
  }
}
