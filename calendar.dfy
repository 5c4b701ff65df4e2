/** The part of JavaScript's `Date` that the closing-date arithmetic uses: local
    calendar dates, `new Date(year, monthIndex, day)` with its overflow of months
    and days into the next ones, and the difference of two instants in milliseconds.
    Months are numbered 0..11 as in JavaScript. Days are counted on the proleptic
    Gregorian calendar, from 1 January of year 0. */
module Calendar {

  const MS_PER_DAY: int := 86_400_000  // 1000 * 60 * 60 * 24

  /** The reading of the clock, `new Date()`, split into its local calendar fields. */
  datatype Instant = Instant(year: int, month: int, day: int, msOfDay: int)

  predicate IsLeapYear(y: int) {
    y % 4 == 0 && (y % 100 != 0 || y % 400 == 0)
  }

  function DaysInMonth(y: int, m: int): (n: int)
    requires 0 <= m < 12
    ensures 28 <= n <= 31
    ensures n == 28 <==> m == 1 && !IsLeapYear(y)
  {
    if m == 1 then (if IsLeapYear(y) then 29 else 28)
    else if m == 3 || m == 5 || m == 8 || m == 10 then 30
    else 31
  }

  predicate ValidInstant(t: Instant) {
    && 0 <= t.month < 12
    && 1 <= t.day <= DaysInMonth(t.year, t.month)
    && 0 <= t.msOfDay < MS_PER_DAY
  }

  /** Days from 1 January of year 0 to 1 January of year `y`. */
  function DaysBeforeYear(y: int): int {
    365 * y + (y + 3) / 4 - (y + 99) / 100 + (y + 399) / 400
  }

  /** Days from 1 January to the first day of month `m` (month 12 is the next 1 January). */
  function DaysBeforeMonth(y: int, m: int): int
    requires 0 <= m <= 12
  {
    if m == 0 then 0 else DaysBeforeMonth(y, m - 1) + DaysInMonth(y, m - 1)
  }

  /** The day that `new Date(y, m, d)` denotes. As in JavaScript, a month index
      outside 0..11 carries into the year and a day outside the month carries into
      the neighbouring months. */
  function DayNumber(y: int, m: int, d: int): int {
    DaysBeforeYear(y + m / 12) + DaysBeforeMonth(y + m / 12, m % 12) + d - 1
  }

  /** `new Date(y, m, d)` carries a day past the month into the following days,
      one for one, and a month index past 11 into the next year. */
  lemma DayNumberOverflow(y: int, m: int, d: int)
    ensures DayNumber(y, m, d) == DayNumber(y, m, 1) + (d - 1)
    ensures DayNumber(y, m + 12, d) == DayNumber(y + 1, m, d)
  {
    assert (m + 12) / 12 == m / 12 + 1 && (m + 12) % 12 == m % 12;
  }

  /** The instant as a count of milliseconds, as `fechaCierre - hoy` subtracts them. */
  function TimeValue(t: Instant): int {
    DayNumber(t.year, t.month, t.day) * MS_PER_DAY + t.msOfDay
  }

  lemma DaysInYear(y: int)
    ensures DaysBeforeMonth(y, 12) == if IsLeapYear(y) then 366 else 365
  {
    var feb := DaysInMonth(y, 1);
    assert DaysBeforeMonth(y, 1) == 31;
    assert DaysBeforeMonth(y, 2) == 31 + feb;
    assert DaysBeforeMonth(y, 3) == 62 + feb;
    assert DaysBeforeMonth(y, 4) == 92 + feb;
    assert DaysBeforeMonth(y, 5) == 123 + feb;
    assert DaysBeforeMonth(y, 6) == 153 + feb;
    assert DaysBeforeMonth(y, 7) == 184 + feb;
    assert DaysBeforeMonth(y, 8) == 215 + feb;
    assert DaysBeforeMonth(y, 9) == 245 + feb;
    assert DaysBeforeMonth(y, 10) == 276 + feb;
    assert DaysBeforeMonth(y, 11) == 306 + feb;
  }

  /** One more year adds one more multiple of 4 exactly when `y` is one. */
  lemma MultiplesOf4(y: int)
    ensures (y + 4) / 4 == (y + 3) / 4 + (if y % 4 == 0 then 1 else 0)
  {
  }

  lemma MultiplesOf100(y: int)
    ensures (y + 100) / 100 == (y + 99) / 100 + (if y % 100 == 0 then 1 else 0)
  {
  }

  lemma MultiplesOf400(y: int)
    ensures (y + 400) / 400 == (y + 399) / 400 + (if y % 400 == 0 then 1 else 0)
  {
  }

  lemma DaysBeforeNextYear(y: int)
    ensures DaysBeforeYear(y + 1) == DaysBeforeYear(y) + if IsLeapYear(y) then 366 else 365
  {
    MultiplesOf4(y);
    MultiplesOf100(y);
    MultiplesOf400(y);
  }

  /** Moving the month index on by one moves the date on by the length of the
      month, December included (it carries into January of the next year). */
  lemma DayNumberNextMonth(y: int, m: int, d: int)
    requires 0 <= m < 12
    ensures DayNumber(y, m + 1, d) == DayNumber(y, m, d) + DaysInMonth(y, m)
  {
    if m == 11 {
      DaysInYear(y);
      DaysBeforeNextYear(y);
    }
  }

  /** Day overflow: `new Date(y, m, 31)` in a 30-day month is the 1st of the next month. */
  lemma DayOverflow(y: int, m: int)
    requires 0 <= m < 12 && DaysInMonth(y, m) == 30
    ensures DayNumber(y, m, 31) == DayNumber(y, m + 1, 1)
  {
    DayNumberNextMonth(y, m, 1);
  }

  /** The same time of day on the following calendar day. */
  function NextDay(t: Instant): (n: Instant)
    requires ValidInstant(t)
    ensures ValidInstant(n) && n.msOfDay == t.msOfDay
    ensures DayNumber(n.year, n.month, n.day) == DayNumber(t.year, t.month, t.day) + 1
  {
    if t.day < DaysInMonth(t.year, t.month) then t.(day := t.day + 1)
    else
      DayNumberNextMonth(t.year, t.month, 1);
      if t.month < 11 then Instant(t.year, t.month + 1, 1, t.msOfDay)
      else Instant(t.year + 1, 0, 1, t.msOfDay)
  }

  /** `Math.ceil(ms / MS_PER_DAY)` for a whole number of milliseconds. */
  function CeilDays(ms: int): (days: int)
    ensures (days - 1) * MS_PER_DAY < ms <= days * MS_PER_DAY
  {
    -((-ms) / MS_PER_DAY)
  }

  /** Rounding up the milliseconds from an instant to a midnight `k` calendar
      days later gives `k`, whatever the earlier instant's time of day. */
  lemma CeilDaysOfDayDifference(k: int, ms: int)
    requires 0 <= ms < MS_PER_DAY
    ensures CeilDays(k * MS_PER_DAY - ms) == k
  {
    var c := CeilDays(k * MS_PER_DAY - ms);
    assert (c - 1) * MS_PER_DAY < k * MS_PER_DAY;
    assert k * MS_PER_DAY - MS_PER_DAY < c * MS_PER_DAY;
  }
}
