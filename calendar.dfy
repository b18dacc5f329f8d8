/** The proleptic Gregorian calendar on day numbers counted from 1970-01-01, as chrono uses it:
    splitting a timestamp into days, the civil date of a day, its weekday, and the names chrono
    prints for weekdays (`%A`) and months (`%B`). */
module Calendar {
  const SECONDS_PER_DAY := 86400

  /** The day number of a timestamp in seconds (flooring, also before 1970). */
  function DayOf(t: int): int {
    t / SECONDS_PER_DAY
  }

  /** Midnight at the start of the timestamp's day. */
  function Midnight(t: int): (m: int)
    ensures m % SECONDS_PER_DAY == 0 && m <= t < m + SECONDS_PER_DAY
    ensures DayOf(m) == DayOf(t)
  {
    DayOf(t) * SECONDS_PER_DAY
  }

  predicate IsLeapYear(y: int) {
    y % 4 == 0 && (y % 100 != 0 || y % 400 == 0)
  }

  function DaysInYear(y: int): nat {
    if IsLeapYear(y) then 366 else 365
  }

  function DaysInMonth(y: int, m: int): nat
    requires 1 <= m <= 12
  {
    if m == 2 then (if IsLeapYear(y) then 29 else 28)
    else if m == 4 || m == 6 || m == 9 || m == 11 then 30
    else 31
  }

  /** Days from the first of month `m` to the end of the year. */
  function DaysFromMonth(y: int, m: int): nat
    requires 1 <= m <= 13
    decreases 13 - m
  {
    if m == 13 then 0 else DaysInMonth(y, m) + DaysFromMonth(y, m + 1)
  }

  lemma MonthsFillYear(y: int)
    ensures DaysFromMonth(y, 1) == DaysInYear(y)
  {
  }

  datatype Date = Date(year: int, month: int, day: int)

  predicate IsValidDate(d: Date) {
    1 <= d.month <= 12 && 1 <= d.day <= DaysInMonth(d.year, d.month)
  }

  /** Walk the months of year `y`, `d` days into month `m`. */
  function MonthWalk(y: int, m: int, d: int): (r: Date)
    requires 1 <= m <= 12 && 0 <= d < DaysFromMonth(y, m)
    ensures IsValidDate(r) && r.year == y
    decreases 12 - m
  {
    if d < DaysInMonth(y, m) then Date(y, m, d + 1) else MonthWalk(y, m + 1, d - DaysInMonth(y, m))
  }

  /** Walk the years from year `y`, `d` days after its first of January (`d` may be negative). */
  function YearWalk(y: int, d: int): (r: Date)
    ensures IsValidDate(r)
    decreases if d < 0 then 1 else 0, if d < 0 then -d else d
  {
    if d < 0 then YearWalk(y - 1, d + DaysInYear(y - 1))
    else if d >= DaysInYear(y) then YearWalk(y + 1, d - DaysInYear(y))
    else
      MonthsFillYear(y);
      MonthWalk(y, 1, d)
  }

  /** The civil date of a day number (`NaiveDate` of a timestamp's day). */
  function CivilFromDays(n: int): (r: Date)
    ensures IsValidDate(r)
  {
    YearWalk(1970, n)
  }

  /** Day number of the first of January of year `y`. */
  function DaysBeforeYear(y: int): int
    decreases if y >= 1970 then y - 1970 else 1970 - y
  {
    if y == 1970 then 0
    else if y > 1970 then DaysBeforeYear(y - 1) + DaysInYear(y - 1)
    else DaysBeforeYear(y + 1) - DaysInYear(y)
  }

  lemma DaysBeforeYearStep(y: int)
    ensures DaysBeforeYear(y) == DaysBeforeYear(y - 1) + DaysInYear(y - 1)
  {
  }

  /** Days from the first of January to the first of month `m`. */
  function DaysBeforeMonth(y: int, m: int): nat
    requires 1 <= m <= 12
  {
    if m == 1 then 0 else DaysBeforeMonth(y, m - 1) + DaysInMonth(y, m - 1)
  }

  /** The day number of a civil date (the inverse of `CivilFromDays`). */
  function DaysFromCivil(d: Date): int
    requires IsValidDate(d)
  {
    DaysBeforeYear(d.year) + DaysBeforeMonth(d.year, d.month) + d.day - 1
  }

  lemma {:induction false} MonthWalkCorrect(y: int, m: int, d: int)
    requires 1 <= m <= 12 && 0 <= d < DaysFromMonth(y, m)
    ensures DaysBeforeMonth(y, MonthWalk(y, m, d).month) + MonthWalk(y, m, d).day - 1 == DaysBeforeMonth(y, m) + d
    decreases 12 - m
  {
    if d >= DaysInMonth(y, m) {
      MonthWalkCorrect(y, m + 1, d - DaysInMonth(y, m));
    }
  }

  lemma {:induction false} YearWalkCorrect(y: int, d: int)
    ensures DaysFromCivil(YearWalk(y, d)) == DaysBeforeYear(y) + d
    decreases if d < 0 then 1 else 0, if d < 0 then -d else d
  {
    if d < 0 {
      YearWalkCorrect(y - 1, d + DaysInYear(y - 1));
      DaysBeforeYearStep(y);
    } else if d >= DaysInYear(y) {
      YearWalkCorrect(y + 1, d - DaysInYear(y));
      DaysBeforeYearStep(y + 1);
    } else {
      MonthsFillYear(y);
      MonthWalkCorrect(y, 1, d);
    }
  }

  /** Every day number names one civil date and reads back from it. */
  lemma CivilRoundTrip(n: int)
    ensures DaysFromCivil(CivilFromDays(n)) == n
  {
    YearWalkCorrect(1970, n);
  }

  /** Distinct days have distinct dates. */
  lemma CivilInjective(a: int, b: int)
    ensures CivilFromDays(a) == CivilFromDays(b) ==> a == b
  {
    CivilRoundTrip(a);
    CivilRoundTrip(b);
  }

  /** Weekday of a day number, Monday = 0; 1970-01-01 was a Thursday. */
  function Weekday(n: int): (w: nat)
    ensures w < 7
  {
    (n + 3) % 7
  }

  /** Consecutive days have consecutive weekdays. */
  lemma WeekdayAdvances(n: int)
    ensures Weekday(n + 1) == (Weekday(n) + 1) % 7
    ensures Weekday(n + 7) == Weekday(n)
  {
  }

  /** `%A`. */
  function WeekdayName(w: nat): string
    requires w < 7
  {
    ["Monday", "Tuesday", "Wednesday", "Thursday", "Friday", "Saturday", "Sunday"][w]
  }

  /** `%B`. */
  function MonthName(m: int): string
    requires 1 <= m <= 12
  {
    ["January", "February", "March", "April", "May", "June", "July", "August",
     "September", "October", "November", "December"][m - 1]
  }
}
