/** The part of java.time.LocalDate the services use: a proleptic-Gregorian
    calendar date, its ordering (`isBefore`/`isAfter`) and the arithmetic
    `plusDays`, `minusDays`, `minusWeeks`, `plusMonths` and `minusMonths`. */
module Dates {

  datatype CivilDate = CivilDate(year: int, month: int, day: int)

  predicate IsLeapYear(year: int) {
    year % 4 == 0 && (year % 100 != 0 || year % 400 == 0)
  }

  /** Number of days of a month (LocalDate.lengthOfMonth). */
  function MonthLength(year: int, month: int): (n: int)
    requires 1 <= month <= 12
    ensures 28 <= n <= 31
    ensures month == 2 ==> (n == 29 <==> IsLeapYear(year))
  {
    if month == 2 then (if IsLeapYear(year) then 29 else 28)
    else if month == 4 || month == 6 || month == 9 || month == 11 then 30
    else 31
  }

  predicate IsValid(d: CivilDate) {
    1 <= d.month <= 12 && 1 <= d.day <= MonthLength(d.year, d.month)
  }

  /** A LocalDate: a civil date that exists in the calendar. */
  type Date = d: CivilDate | IsValid(d) witness CivilDate(2000, 1, 1)

  /** LocalDate.isBefore: chronological order on dates. */
  predicate Before(a: Date, b: Date) {
    a.year < b.year
    || (a.year == b.year && (a.month < b.month || (a.month == b.month && a.day < b.day)))
  }

  /** LocalDate.isAfter. */
  predicate After(a: Date, b: Date) {
    Before(b, a)
  }

  /** The day after `d`. */
  function NextDay(d: Date): (r: Date)
    ensures Before(d, r)
  {
    if d.day < MonthLength(d.year, d.month) then CivilDate(d.year, d.month, d.day + 1)
    else if d.month < 12 then CivilDate(d.year, d.month + 1, 1)
    else CivilDate(d.year + 1, 1, 1)
  }

  /** The day before `d`. */
  function PrevDay(d: Date): (r: Date)
    ensures Before(r, d)
  {
    if d.day > 1 then CivilDate(d.year, d.month, d.day - 1)
    else if d.month > 1 then CivilDate(d.year, d.month - 1, MonthLength(d.year, d.month - 1))
    else CivilDate(d.year - 1, 12, 31)
  }

  /** No date lies strictly between a day and the next one. */
  lemma NextDayIsSuccessor(d: Date, e: Date)
    requires Before(d, e)
    ensures e == NextDay(d) || Before(NextDay(d), e)
  {
  }

  /** NextDay and PrevDay undo each other. */
  lemma NextPrevInverse(d: Date)
    ensures NextDay(PrevDay(d)) == d
    ensures PrevDay(NextDay(d)) == d
  {
  }

  /** LocalDate.plusDays: `n` days later (earlier when `n` is negative). */
  function PlusDays(d: Date, n: int): (r: Date)
    ensures n == 0 ==> r == d
    ensures n > 0 ==> Before(d, r)
    ensures n < 0 ==> Before(r, d)
    decreases if n < 0 then -n else n
  {
    if n == 0 then d
    else if n > 0 then PlusDays(NextDay(d), n - 1)
    else PlusDays(PrevDay(d), n + 1)
  }

  /** LocalDate.minusDays. */
  function MinusDays(d: Date, n: int): Date {
    PlusDays(d, -n)
  }

  /** LocalDate.minusWeeks: a week is seven days. */
  function MinusWeeks(d: Date, w: int): Date {
    PlusDays(d, -7 * w)
  }

  function Min(a: int, b: int): int {
    if a <= b then a else b
  }

  /** LocalDate.plusMonths: move the month count by `n` (floor division by 12)
      and clamp the day of month to the length of the month reached. */
  function PlusMonths(d: Date, n: int): (r: Date)
    ensures n == 0 ==> r == d
    ensures r.year * 12 + r.month == d.year * 12 + d.month + n
    ensures r.day == Min(d.day, MonthLength(r.year, r.month))
  {
    var total := d.year * 12 + (d.month - 1) + n;
    var y := total / 12;
    var m := total % 12 + 1;
    CivilDate(y, m, Min(d.day, MonthLength(y, m)))
  }

  /** LocalDate.minusMonths. */
  function MinusMonths(d: Date, n: int): Date {
    PlusMonths(d, -n)
  }

  /** Stepping forward one day then `n` more is stepping `n + 1` days; likewise backward. */
  lemma {:induction false} PlusDaysNext(d: Date, n: int)
    ensures PlusDays(NextDay(d), n) == PlusDays(d, n + 1)
    ensures PlusDays(PrevDay(d), n) == PlusDays(d, n - 1)
    decreases if n < 0 then -n else n
  {
    NextPrevInverse(d);
    if n > 0 {
      PlusDaysNext(NextDay(d), n - 1);
    } else if n < 0 {
      PlusDaysNext(PrevDay(d), n + 1);
    }
  }

  /** plusDays is additive: `d.plusDays(a).plusDays(b) == d.plusDays(a + b)`. */
  lemma {:induction false} PlusDaysAdditive(d: Date, a: int, b: int)
    ensures PlusDays(PlusDays(d, a), b) == PlusDays(d, a + b)
    decreases if a < 0 then -a else a
  {
    if a > 0 {
      PlusDaysAdditive(NextDay(d), a - 1, b);
      PlusDaysNext(d, a + b - 1);
    } else if a < 0 {
      PlusDaysAdditive(PrevDay(d), a + 1, b);
      PlusDaysNext(d, a + b + 1);
    }
  }

  /** plusDays is monotonic in the number of days. */
  lemma PlusDaysMonotonic(d: Date, a: int, b: int)
    requires a <= b
    ensures !After(PlusDays(d, a), PlusDays(d, b))
  {
    PlusDaysAdditive(d, a, b - a);
  }

  /** Subtracting one day and adding it back is the identity. */
  lemma MinusDayRoundTrip(d: Date)
    ensures PlusDays(MinusDays(d, 1), 1) == d
    ensures MinusDays(d, 1) == PrevDay(d)
  {
    PlusDaysAdditive(d, -1, 1);
  }

  /** Subtracting one week and adding seven days back is the identity. */
  lemma MinusWeekRoundTrip(d: Date)
    ensures PlusDays(MinusWeeks(d, 1), 7) == d
    ensures Before(MinusWeeks(d, 1), d)
  {
    PlusDaysAdditive(d, -7, 7);
  }

  /** `minusMonths(1)` lands on the previous month, keeps the day of month
      when that month has it and otherwise clamps to its last day, and is
      strictly earlier. */
  lemma MinusMonthShape(d: Date)
    ensures var r := MinusMonths(d, 1);
      && r.month == (if d.month == 1 then 12 else d.month - 1)
      && r.year == (if d.month == 1 then d.year - 1 else d.year)
      && r.day == Min(d.day, MonthLength(r.year, r.month))
      && Before(r, d)
  {
  }

  /** A week before 2024-01-10 is 2024-01-03. */
  lemma WeekBeforeExample()
    ensures MinusWeeks(CivilDate(2024, 1, 10), 1) == CivilDate(2024, 1, 3)
  {
  }

  /** A month before 2024-03-31 is the last day of February of that leap year. */
  lemma MonthBeforeClampsExample()
    ensures MinusMonths(CivilDate(2024, 3, 31), 1) == CivilDate(2024, 2, 29)
  {
  }
}
