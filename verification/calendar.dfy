/** Calendar dates as the pages read them from `Date` objects: the month is
    0-based as `getMonth()` returns it, the day 1-based as `getDate()`. */
module Calendar {

  datatype CalendarDate = CalendarDate(year: int, month: int, day: int)

  /** Leap years of the proleptic Gregorian calendar that `Date` uses. */
  predicate IsLeapYear(y: int) {
    (y % 4 == 0 && y % 100 != 0) || y % 400 == 0
  }

  /** The number of days in a month (0-based), that is its last day's number. */
  function DaysInMonth(year: int, month: int): (n: int)
    requires 0 <= month < 12
    ensures 28 <= n <= 31
    ensures month == 1 ==> (n == 29 <==> IsLeapYear(year))
    ensures month != 1 ==> n >= 30
  {
    if month == 1 then (if IsLeapYear(year) then 29 else 28)
    else if month == 3 || month == 5 || month == 8 || month == 10 then 30
    else 31
  }

  /** The values a `Date` object's getters can return together. */
  predicate ValidDate(d: CalendarDate) {
    0 <= d.month < 12 && 1 <= d.day <= DaysInMonth(d.year, d.month)
  }
}
