/** Dates as day numbers of the proleptic Gregorian calendar; day 0 is 0001-01-01, a Monday.
    Fiscal years and reporting periods are runs of whole months, weeks or days. */
module Calendar {
  import opened Options

  type Date = int

  predicate Leap(year: int) {
    year % 4 == 0 && (year % 100 != 0 || year % 400 == 0)
  }

  /** The length of a month; months are numbered on from January of the year 0. */
  function MonthDays(month: int): (days: int)
    ensures 28 <= days <= 31
  {
    var inYear := month % 12;
    if inYear == 1 then (if Leap(month / 12) then 29 else 28)
    else if inYear == 3 || inYear == 5 || inYear == 8 || inYear == 10 then 30
    else 31
  }

  /** The first day of a month, counted on from January of the year 1. */
  function MonthStart(month: int): Date
    decreases month < 12, if month < 12 then 12 - month else month - 12
  {
    if month == 12 then 0
    else if month < 12 then MonthStart(month + 1) - MonthDays(month)
    else MonthStart(month - 1) + MonthDays(month - 1)
  }

  lemma MonthLength(month: int)
    ensures MonthStart(month + 1) == MonthStart(month) + MonthDays(month)
  {
  }

  lemma {:induction false} MonthsAscend(a: int, b: int)
    requires a < b
    ensures MonthStart(a) < MonthStart(b)
    decreases b - a
  {
    MonthLength(a);
    if a + 1 < b {
      MonthsAscend(a + 1, b);
    }
  }

  /** The month a day falls in, looked for from `guess`. */
  function MonthFrom(day: Date, guess: int): (month: int)
    ensures MonthStart(month) <= day < MonthStart(month + 1)
    decreases day < MonthStart(guess), if day < MonthStart(guess) then MonthStart(guess) - day
              else day - MonthStart(guess)
  {
    MonthLength(guess);
    MonthLength(guess - 1);
    if day < MonthStart(guess) then MonthFrom(day, guess - 1)
    else if MonthStart(guess + 1) <= day then MonthFrom(day, guess + 1)
    else guess
  }

  function MonthOf(day: Date): (month: int)
    ensures MonthStart(month) <= day < MonthStart(month + 1)
  {
    MonthFrom(day, 0)
  }

  function CalendarYear(day: Date): int {
    MonthOf(day) / 12
  }

  // ---------------------------------------------------------------- the proleptic Gregorian calendar

  /** The lengths of the months of a year that is not a leap year. */
  const MONTH_LENGTHS: seq<int> := [31, 28, 31, 30, 31, 30, 31, 31, 30, 31, 30, 31]

  lemma MonthLengths(year: int, inYear: nat)
    requires inYear < 12
    ensures MonthDays(12 * year + inYear)
         == MONTH_LENGTHS[inYear] + if inYear == 1 && year % 4 == 0
            && (year % 100 != 0 || year % 400 == 0) then 1 else 0
  {
    assert (12 * year + inYear) % 12 == inYear && (12 * year + inYear) / 12 == year;
  }

  /** How many of the years before one are multiples of a number. */
  function Multiples(d: int, year: int): int
    requires 0 < d
  {
    (year - 1) / d
  }

  /** The days before a year, by the rule of leap years. */
  function DaysBefore(year: int): int {
    365 * (year - 1) + Multiples(4, year) - Multiples(100, year) + Multiples(400, year)
  }

  lemma YearLength(year: int)
    ensures MonthStart(12 * (year + 1)) - MonthStart(12 * year) == DaysBefore(year + 1) - DaysBefore(year)
  {
    var m := 12 * year;
    hide MonthStart, MonthDays;
    MonthLength(m); MonthLength(m + 1); MonthLength(m + 2); MonthLength(m + 3); MonthLength(m + 4); MonthLength(m + 5);
    MonthLength(m + 6); MonthLength(m + 7); MonthLength(m + 8); MonthLength(m + 9); MonthLength(m
            + 10); MonthLength(m + 11);
    MonthLengths(year, 0); MonthLengths(year, 1); MonthLengths(year, 2); MonthLengths(year, 3);
    MonthLengths(year, 4); MonthLengths(year, 5); MonthLengths(year, 6); MonthLengths(year, 7);
    MonthLengths(year, 8); MonthLengths(year, 9); MonthLengths(year, 10); MonthLengths(year, 11);
    LeapDays(year);
  }

  lemma LeapDays(year: int)
    ensures DaysBefore(year + 1) - DaysBefore(year)
         == 365 + if year % 4 == 0 && (year % 100 != 0 || year % 400 == 0) then 1 else 0
  {
    hide Multiples;
    EveryFourth(year);
    EveryHundredth(year);
    EveryFourHundredth(year);
  }

  lemma EveryFourth(year: int)
    ensures Multiples(4, year + 1) - Multiples(4, year) == if year % 4 == 0 then 1 else 0
  {
  }

  lemma EveryHundredth(year: int)
    ensures Multiples(100, year + 1) - Multiples(100, year) == if year % 100 == 0 then 1 else 0
    ensures year % 100 == 0 ==> year % 4 == 0
  {
  }

  lemma EveryFourHundredth(year: int)
    ensures Multiples(400, year + 1) - Multiples(400, year) == if year % 400 == 0 then 1 else 0
    ensures year % 400 == 0 ==> year % 100 == 0
  {
  }

  /** Every year starts where counting leap days says. */
  lemma {:induction false} YearStarts(year: int)
    ensures MonthStart(12 * year) == DaysBefore(year)
    decreases if year < 1 then 1 - year else year - 1
  {
    hide MonthDays, DaysBefore;
    if year == 1 {
      FirstYear();
    } else if year < 1 {
      YearStarts(year + 1);
      YearLength(year);
    } else {
      YearStarts(year - 1);
      YearLength(year - 1);
    }
  }

  lemma FirstYear()
    ensures MonthStart(12) == 0 && DaysBefore(1) == 0
  {
  }

  // ---------------------------------------------------------------- fiscal years

  datatype Window = Window(start: Date, end: Date) {
    predicate Contains(day: Date) { start <= day <= end }
  }

  /** `FiscalYear::for_year`: twelve months from the first of `startMonth` (1 to 12). */
  function FiscalWindow(startMonth: int, year: int): Window {
    Window(MonthStart(12 * year + startMonth - 1), MonthStart(12 * (year + 1) + startMonth - 1) - 1)
  }

  /** A fiscal year starts no earlier than the one before ends. */
  lemma FiscalYearsAscend(startMonth: int, year: int, other: int)
    requires year < other
    ensures FiscalWindow(startMonth, year).end < FiscalWindow(startMonth, other).start
  {
    hide MonthStart;
    if year + 1 != other {
      MonthsAscend(12 * (year + 1) + startMonth - 1, 12 * other + startMonth - 1);
    }
  }

  /** A fiscal year runs from the first of its month in the year that names it to the eve of that day a year on. */
  lemma FiscalYearRuns(startMonth: int, year: int)
    requires 1 <= startMonth <= 12
    ensures var w := FiscalWindow(startMonth, year);
            && w.start == MonthStart(MonthOf(w.start)) && MonthOf(w.start) == 12 * year + startMonth - 1
            && w.end + 1 == MonthStart(MonthOf(w.end + 1)) && MonthOf(w.end + 1) == MonthOf(w.start) + 12
    ensures startMonth == 1 ==> FiscalWindow(startMonth, year) == Window(DaysBefore(year), DaysBefore(year + 1) - 1)
  {
    hide MonthStart;
    MonthOfStart(12 * year + startMonth - 1);
    MonthOfStart(12 * (year + 1) + startMonth - 1);
    YearStarts(year);
    YearStarts(year + 1);
  }

  lemma MonthOfStart(month: int)
    ensures MonthOf(MonthStart(month)) == month
  {
    hide MonthStart;
    var other := MonthOf(MonthStart(month));
    MonthNotAfter(other + 1, month);
    if month < other {
      MonthsAscend(month, other);
    }
  }

  /** Fiscal years of one company tile the calendar: windows are never empty and no day is in two. */
  lemma FiscalYearsTile(startMonth: int, year: int, other: int, day: Date)
    ensures FiscalWindow(startMonth, year).start <= FiscalWindow(startMonth, year).end
    ensures FiscalWindow(startMonth, year).end + 1 == FiscalWindow(startMonth, year + 1).start
    ensures FiscalWindow(startMonth, year).Contains(day) && FiscalWindow(startMonth, other).Contains(day) ==>
              year == other
  {
    hide MonthStart;
    MonthsAscend(12 * year + startMonth - 1, 12 * (year + 1) + startMonth - 1);
    if year < other {
      FiscalYearsAscend(startMonth, year, other);
    } else if other < year {
      FiscalYearsAscend(startMonth, other, year);
    }
  }

  /** `fiscal_year_containing`: the fiscal year of the calendar year, or the one before it. */
  function FiscalYearContaining(startMonth: int, day: Date): (year: int)
    requires 1 <= startMonth <= 12
    ensures FiscalWindow(startMonth, year).Contains(day)
    ensures forall other :: FiscalWindow(startMonth, other).Contains(day) ==> other == year
  {
    var candidate := CalendarYear(day);
    var year := if day < FiscalWindow(startMonth, candidate).start then candidate - 1 else candidate;
    FiscalYearFound(startMonth, day);
    year
  }

  lemma {:induction false} FiscalYearFound(startMonth: int, day: Date)
    requires 1 <= startMonth <= 12
    ensures var candidate := CalendarYear(day);
            var year := if day < FiscalWindow(startMonth, candidate).start then candidate - 1 else candidate;
            && FiscalWindow(startMonth, year).Contains(day)
            && forall other :: FiscalWindow(startMonth, other).Contains(day) ==> other == year
  {
    hide MonthStart;
    var month := MonthOf(day);
    var candidate := month / 12;
    var year := if day < FiscalWindow(startMonth, candidate).start then candidate - 1 else candidate;
    MonthNotAfter(12 * year + startMonth - 1, 12 * candidate + startMonth - 1);
    MonthNotAfter(12 * (candidate - 1) + startMonth - 1, month);
    MonthNotAfter(month + 1, 12 * (candidate + 1) + startMonth - 1);
    assert FiscalWindow(startMonth, year).Contains(day);
    forall other | FiscalWindow(startMonth, other).Contains(day) ensures other == year {
      FiscalYearsTile(startMonth, year, other, day);
    }
  }

  lemma MonthNotAfter(a: int, b: int)
    ensures a <= b ==> MonthStart(a) <= MonthStart(b)
  {
    if a < b { MonthsAscend(a, b); }
  }

  // ---------------------------------------------------------------- reporting periods

  datatype Frequency = PerEvent | Daily | Weekly | Monthly

  datatype Period = Period(start: Date, end: Date, frequency: Frequency) {
    predicate Contains(day: Date) { start <= day <= end }

    /** Over, and settled for one day. */
    predicate ClosedOn(today: Date) { end + 1 <= today }
  }

  /** `ReportingFrequency::period_of`. */
  function PeriodOf(frequency: Frequency, day: Date): Option<Period> {
    match frequency
    case PerEvent => None
    case Daily => Some(Period(day, day, Daily))
    case Weekly => Some(Period(day - day % 7, day - day % 7 + 6, Weekly))
    case Monthly => Some(Period(MonthStart(MonthOf(day)), MonthStart(MonthOf(day) + 1) - 1, Monthly))
  }

  /** Periods of one frequency contain the day asked about and tile the calendar: two of them are
      the same or apart, in the order of their first days. */
  lemma {:induction false} PeriodsTile(frequency: Frequency, a: Date, b: Date)
    requires frequency != PerEvent
    ensures PeriodOf(frequency, a).Some? && PeriodOf(frequency, b).Some?
    ensures PeriodOf(frequency, a).value.Contains(a)
    ensures var p, q := PeriodOf(frequency, a).value, PeriodOf(frequency, b).value;
            p == q || p.end < q.start || q.end < p.start
    ensures PeriodOf(frequency, a).value.Contains(b) ==> PeriodOf(frequency, b) == PeriodOf(frequency, a)
  {
    hide MonthStart;
    if frequency == Monthly {
      var m, n := MonthOf(a), MonthOf(b);
      MonthNotAfter(m + 1, n);
      MonthNotAfter(n + 1, m);
    }
  }

  /** What the periods are: single days, weeks from Monday to Sunday, whole months. */
  lemma PeriodsAre(frequency: Frequency, day: Date)
    requires frequency != PerEvent
    ensures var p := PeriodOf(frequency, day).value;
            && p.frequency == frequency && p.start <= day <= p.end
            && (frequency == Daily ==> p.start == p.end)
            && (frequency == Weekly ==> p.start % 7 == 0 && p.end == p.start + 6)
            && (frequency == Monthly ==>
                  exists month :: p.start == MonthStart(month) && p.end + 1 == MonthStart(month + 1))
  {
    hide MonthStart;
    if frequency == Monthly {
      var month := MonthOf(day);
      assert PeriodOf(frequency, day).value.start == MonthStart(month);
    }
  }

  /** New Year's Day of 1970 is a Thursday: its week began three days before. */
  lemma TheEpochIsAThursday()
    ensures MonthStart(12 * 1970) == 719162 && PeriodOf(Weekly, 719162) == Some(Period(719159, 719165, Weekly))
  {
    hide *;
    YearStarts(1970);
    DaysBeforeTheEpoch();
    WeekOfTheEpoch();
  }

  lemma DaysBeforeTheEpoch()
    ensures DaysBefore(1970) == 719162
  {
  }

  lemma WeekOfTheEpoch()
    ensures PeriodOf(Weekly, 719162) == Some(Period(719159, 719165, Weekly))
  {
    hide MonthStart, MonthOf;
  }

  /** A period is settled once a whole day has gone by since its last. */
  lemma ClosedMeans(p: Period, today: Date)
    ensures p.ClosedOn(today) <==> p.end < today
  {
  }

  /** The first day of a period names it. */
  lemma PeriodKeysAreInjective(frequency: Frequency, a: Date, b: Date)
    requires frequency != PerEvent
    requires PeriodOf(frequency, a).value.start == PeriodOf(frequency, b).value.start
    ensures PeriodOf(frequency, a) == PeriodOf(frequency, b)
  {
    PeriodsTile(frequency, a, b);
    PeriodsTile(frequency, b, a);
  }
}
