// The simulation calendar: one tick is one day, starting at 2025-01-01.
// Only what the engine reads from the date (its month) and the one-day
// advance are modelled, on proleptic Gregorian dates.

module Calendar {

  datatype Date = Date(year: int, month: int, day: int)

  /** The first day of every run. */
  const Epoch: Date := Date(2025, 1, 1)

  predicate IsLeapYear(y: int) {
    y % 4 == 0 && (y % 100 != 0 || y % 400 == 0)
  }

  function DaysInMonth(y: int, m: int): int
    requires 1 <= m <= 12
  {
    if m == 2 then (if IsLeapYear(y) then 29 else 28)
    else if m == 4 || m == 6 || m == 9 || m == 11 then 30
    else 31
  }

  predicate ValidDate(d: Date) {
    1 <= d.month <= 12 && 1 <= d.day <= DaysInMonth(d.year, d.month)
  }

  /** A date that exists on the calendar. */
  type CalendarDate = d: Date | ValidDate(d) witness Date(2025, 1, 1)

  /** Chronological order on dates. */
  predicate Before(a: Date, b: Date) {
    a.year < b.year
    || (a.year == b.year && (a.month < b.month || (a.month == b.month && a.day < b.day)))
  }

  /** `date + timedelta(days=1)`: the valid date immediately after `d`, with
      no valid date strictly between the two. */
  function NextDay(d: Date): (e: Date)
    requires ValidDate(d)
    ensures ValidDate(e) && Before(d, e)
    ensures forall x :: ValidDate(x) && Before(d, x) ==> !Before(x, e)
    ensures e.month == d.month || e.month == d.month % 12 + 1
  {
    if d.day < DaysInMonth(d.year, d.month) then Date(d.year, d.month, d.day + 1)
    else if d.month < 12 then Date(d.year, d.month + 1, 1)
    else Date(d.year + 1, 1, 1)
  }

  /** Leap days exist exactly in leap years: 28 February is followed by 29
      February in a leap year and by 1 March otherwise. */
  lemma LeapDay(y: int)
    ensures NextDay(Date(y, 2, 28)) == (if IsLeapYear(y) then Date(y, 2, 29) else Date(y, 3, 1))
  {
  }
}
