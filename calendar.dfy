/** Local calendar time as the dashboard reads it through the JavaScript Date
    accessors: getFullYear, getMonth (0 = January), getDate (1-31) and
    getHours (0-23). Minutes and finer, time zones and daylight-saving
    shifts are not part of this model. */
module Calendar {

  datatype Instant = Instant(year: int, month: nat, day: nat, hour: nat)

  predicate IsLeapYear(y: int)
  {
    y % 4 == 0 && (y % 100 != 0 || y % 400 == 0)
  }

  /** Days in month `m` (0 = January) of year `y`, Gregorian rules. */
  function DaysInMonth(y: int, m: nat): (n: nat)
    ensures 28 <= n <= 31
    ensures n == 29 <==> m == 1 && IsLeapYear(y)
  {
    if m == 1 then (if IsLeapYear(y) then 29 else 28)
    else if m == 3 || m == 5 || m == 8 || m == 10 then 30
    else 31
  }

  predicate Valid(d: Instant)
  {
    d.month < 12 && 1 <= d.day <= DaysInMonth(d.year, d.month) && d.hour < 24
  }

  /** A valid point in local time, at hour resolution. */
  type Date = d: Instant | Valid(d) witness Instant(1970, 0, 1, 0)

  /** Chronological order: year, then month, then day, then hour. */
  predicate Before(a: Instant, b: Instant)
  {
    a.year < b.year || (a.year == b.year &&
      (a.month < b.month || (a.month == b.month &&
        (a.day < b.day || (a.day == b.day && a.hour < b.hour)))))
  }

  predicate AtOrBefore(a: Instant, b: Instant)
  {
    !Before(b, a)
  }

  /** The calendar date alone, as `toDateString` renders it. */
  datatype CalendarDay = CalendarDay(year: int, month: nat, day: nat)

  function DayOf(d: Instant): CalendarDay
  {
    CalendarDay(d.year, d.month, d.day)
  }

  /** The same hour of the next calendar day. */
  function NextDay(d: Date): (r: Date)
    ensures r.hour == d.hour && Before(d, r)
  {
    if d.day < DaysInMonth(d.year, d.month) then d.(day := d.day + 1)
    else if d.month < 11 then Instant(d.year, d.month + 1, 1, d.hour)
    else Instant(d.year + 1, 0, 1, d.hour)
  }

  /** `setDate(getDate() - 1)`: the same hour of the previous calendar day,
      rolling back over month and year boundaries. */
  function PrevDay(d: Date): (r: Date)
    ensures r.hour == d.hour && Before(r, d)
    ensures NextDay(r) == d
  {
    if d.day > 1 then d.(day := d.day - 1)
    else if d.month > 0 then Instant(d.year, d.month - 1, DaysInMonth(d.year, d.month - 1), d.hour)
    else Instant(d.year - 1, 11, 31, d.hour)
  }

  lemma PrevDayUndoesNextDay(d: Date)
    ensures PrevDay(NextDay(d)) == d
  {
  }

  /** No date at the same hour lies strictly between the previous day and `d`. */
  lemma PrevDayIsAdjacent(d: Date, e: Date)
    requires e.hour == d.hour
    ensures !(Before(PrevDay(d), e) && Before(e, d))
  {
  }

  /** `setDate(getDate() - n)`: `n` calendar days back, at the same hour. */
  function SubDays(d: Date, n: nat): (r: Date)
    ensures r.hour == d.hour
    ensures n > 0 ==> Before(r, d)
    decreases n
  {
    if n == 0 then d else SubDays(PrevDay(d), n - 1)
  }

  /** Going further back gives a strictly earlier date. */
  lemma {:induction false} SubDaysMonotone(d: Date, m: nat, n: nat)
    requires m < n
    ensures Before(SubDays(d, n), SubDays(d, m))
    decreases m
  {
    if m > 0 {
      SubDaysMonotone(PrevDay(d), m - 1, n - 1);
    }
  }

  datatype YearMonth = YearMonth(year: int, month: nat)

  function MonthBefore(y: int, m: nat): (r: YearMonth)
    requires m < 12
    ensures r.month < 12
  {
    if m == 0 then YearMonth(y - 1, 11) else YearMonth(y, m - 1)
  }

  function MonthAfter(ym: YearMonth): YearMonth
  {
    if ym.month == 11 then YearMonth(ym.year + 1, 0) else YearMonth(ym.year, ym.month + 1)
  }

  /** Year and month of a copy of `now` after `setMonth(now.getMonth() - 1)`.
      The month index -1 rolls back to December of the year before; a day of
      the month the target month does not have (the 29th to the 31st)
      overflows into the month after it, which is the month of `now`. */
  function LastMonth(now: Date): (r: YearMonth)
    ensures r.month < 12
    ensures var p := MonthBefore(now.year, now.month);
      if now.day <= DaysInMonth(p.year, p.month) then r == p
      else r == YearMonth(now.year, now.month) && 29 <= now.day
  {
    var p := MonthBefore(now.year, now.month);
    if now.day <= DaysInMonth(p.year, p.month) then p else MonthAfter(p)
  }

  /** Sakamoto's month offsets, January first. */
  const MonthOffset: seq<nat> := [0, 3, 2, 5, 0, 3, 5, 1, 4, 6, 2, 4]

  /** Day count of Sakamoto's method for year `y`: one day per year and one
      more per Gregorian leap year. */
  function SakamotoYear(y: int): int
  {
    y + y / 4 - y / 100 + y / 400
  }

  /** A day number that grows by one from each date to the next, up to a
      multiple of a week; January and February count with the year before. */
  function WeekdayNumber(d: Date): int
  {
    var y := if d.month < 2 then d.year - 1 else d.year;
    SakamotoYear(y) + MonthOffset[d.month] + d.day
  }

  /** getDay(): 0 = Sunday, by Sakamoto's method for the Gregorian calendar. */
  function DayOfWeek(d: Date): (w: nat)
    ensures w < 7
  {
    WeekdayNumber(d) % 7
  }

  lemma QuarterStep(y: int)
    ensures y / 4 - (y - 1) / 4 == if y % 4 == 0 then 1 else 0
  {
  }

  lemma CenturyStep(y: int)
    ensures y / 100 - (y - 1) / 100 == if y % 100 == 0 then 1 else 0
  {
  }

  lemma FourCenturyStep(y: int)
    ensures y / 400 - (y - 1) / 400 == if y % 400 == 0 then 1 else 0
  {
  }

  lemma DivisibilityChain(y: int)
    ensures y % 400 == 0 ==> y % 100 == 0
    ensures y % 100 == 0 ==> y % 4 == 0
  {
    if y % 400 == 0 {
      assert y == 400 * (y / 400);
    }
    if y % 100 == 0 {
      assert y == 100 * (y / 100);
    }
  }

  /** The leap-day count steps by one more in a leap year. */
  lemma LeapCountStep(y: int)
    ensures SakamotoYear(y) - SakamotoYear(y - 1) == if IsLeapYear(y) then 2 else 1
  {
    QuarterStep(y);
    CenturyStep(y);
    FourCenturyStep(y);
    DivisibilityChain(y);
    var q := y / 4 - (y - 1) / 4;
    var c := y / 100 - (y - 1) / 100;
    var f := y / 400 - (y - 1) / 400;
    assert SakamotoYear(y) - SakamotoYear(y - 1) == 1 + q - c + f;
  }

  /** From one date to the next the weekday number grows by one, less a
      whole number of weeks at the end of a month. */
  lemma WeekdayNumberStep(d: Date)
    ensures WeekdayNumber(NextDay(d)) == WeekdayNumber(d) + 1 - (if d.day < DaysInMonth(d.year, d.month) then 0
      else if d.month in {3, 6, 9, 11} then 35 else 28)
  {
    if d.day == DaysInMonth(d.year, d.month) && d.month == 1 {
      LeapCountStep(d.year);
    }
  }

  lemma ModStep(a: int, b: int, weeks: int)
    requires b == a + 1 - 7 * weeks
    ensures b % 7 == (a % 7 + 1) % 7
  {
  }

  /** `getDay()` is the weekday: the next calendar day is the next weekday. */
  lemma DayOfWeekNextDay(d: Date)
    ensures DayOfWeek(NextDay(d)) == (DayOfWeek(d) + 1) % 7
  {
    WeekdayNumberStep(d);
    var weeks := if d.day < DaysInMonth(d.year, d.month) then 0 else if d.month in {3, 6, 9, 11} then 5 else 4;
    ModStep(WeekdayNumber(d), WeekdayNumber(NextDay(d)), weeks);
  }

  /** 1 January 1970 was a Thursday and 1 January 2025 a Wednesday; with
      `DayOfWeekNextDay` this fixes the weekday of every date. */
  lemma DayOfWeekOfKnownDates()
    ensures DayOfWeek(Instant(1970, 0, 1, 0)) == 4
    ensures DayOfWeek(Instant(2025, 0, 1, 0)) == 3
  {
  }
}
