/**
 * The proleptic Gregorian calendar that Python's `datetime` and `calendar`
 * modules use: leap years, month lengths, and the day ordinal in which
 * 0001-01-01 is day 1 (`date.toordinal`).  Adding a `timedelta` of whole days
 * to a date moves its ordinal, and `FromOrdinal` converts back.
 */
module Calendar {

  /** A calendar date; only the date part of a `datetime` is modelled. */
  datatype Date = Date(year: int, month: int, day: int)

  /** `datetime.MINYEAR` and `datetime.MAXYEAR`. */
  const MinYear := 1
  const MaxYear := 9999

  /** The ordinal of 9999-12-31, the last date `datetime` can hold. */
  const MaxOrdinal := 3652059

  /** `calendar.isleap`: divisible by 4, and not by 100 unless by 400. */
  predicate IsLeap(year: int) {
    year % 4 == 0 && (year % 100 != 0 || year % 400 == 0)
  }

  function DaysInYear(year: int): int {
    if IsLeap(year) then 366 else 365
  }

  /** `calendar.mdays`: the length of each month of a common year. */
  const CommonMonthDays: seq<int> := [0, 31, 28, 31, 30, 31, 30, 31, 31, 30, 31, 30, 31]

  /** `calendar.monthrange(year, month)[1]`: the number of days in the month. */
  function DaysInMonth(year: int, month: int): (n: int)
    requires 1 <= month <= 12
    ensures 28 <= n <= 31
  {
    CommonMonthDays[month] + (if month == 2 && IsLeap(year) then 1 else 0)
  }

  /** A date `datetime` can be built from (ignoring the upper year bound). */
  predicate ValidDate(d: Date) {
    MinYear <= d.year && 1 <= d.month <= 12 && 1 <= d.day <= DaysInMonth(d.year, d.month)
  }

  /** A date `datetime` can hold: valid and not after year 9999. */
  predicate InRange(d: Date) {
    ValidDate(d) && d.year <= MaxYear
  }

  /** Days in the years before `year` (the ordinal of Dec 31 of `year - 1`). */
  function DaysBeforeYear(year: int): int
    requires year >= MinYear
  {
    var y := year - 1;
    365 * y + y / 4 - y / 100 + y / 400
  }

  /** `_DAYS_BEFORE_MONTH`: the days before each month of a common year; entry 13 is the whole year. */
  const CommonDaysBeforeMonth: seq<int> := [0, 0, 31, 59, 90, 120, 151, 181, 212, 243, 273, 304, 334, 365]

  /** Days in the months of `year` before `month`; month 13 counts the whole year. */
  function DaysBeforeMonth(year: int, month: int): int
    requires 1 <= month <= 13
  {
    CommonDaysBeforeMonth[month] + (if month > 2 && IsLeap(year) then 1 else 0)
  }

  /** The days before the next month are the days before this one plus this month's length. */
  lemma MonthStep(year: int, month: int)
    requires 1 <= month <= 12
    ensures DaysBeforeMonth(year, month + 1) == DaysBeforeMonth(year, month) + DaysInMonth(year, month)
  {
  }

  /** `date.toordinal`: 0001-01-01 is day 1. */
  function ToOrdinal(d: Date): (n: int)
    requires ValidDate(d)
    ensures n >= 1
  {
    DaysBeforeMonthBounds(d.year, d.month);
    DaysBeforeYear(d.year) + DaysBeforeMonth(d.year, d.month) + d.day
  }

  lemma DaysBeforeMonthBounds(year: int, month: int)
    requires 1 <= month <= 13
    ensures 0 <= DaysBeforeMonth(year, month)
  {
  }

  /** The twelve month lengths add up to the length of the year. */
  lemma YearLength(year: int)
    ensures DaysBeforeMonth(year, 13) == DaysInYear(year)
    ensures DaysBeforeMonth(year, 12) + DaysInMonth(year, 12) == DaysInYear(year)
  {
  }

  /** One more year adds that year's length: the closed form agrees with the leap rule. */
  lemma DaysBeforeYearStep(year: int)
    requires year >= MinYear
    ensures DaysBeforeYear(year + 1) == DaysBeforeYear(year) + DaysInYear(year)
  {
    QuotientStep(year, 4);
    QuotientStep(year, 100);
    QuotientStep(year, 400);
    if year % 400 == 0 {
      MultipleOf400(year);
    }
    if year % 100 == 0 {
      MultipleOf100(year);
    }
  }

  /** A multiple of 400 is a multiple of 100. */
  lemma MultipleOf400(n: int)
    requires n % 400 == 0
    ensures n % 100 == 0
  {
    var k := n / 400;
    assert n == 400 * k;
  }

  /** A multiple of 100 is a multiple of 4. */
  lemma MultipleOf100(n: int)
    requires n % 100 == 0
    ensures n % 4 == 0
  {
    var k := n / 100;
    assert n == 100 * k;
    assert n == 4 * (25 * k);
  }

  /** Counting up to `n` rather than `n - 1` adds one multiple of `m` exactly when `n` is one. */
  lemma QuotientStep(n: int, m: int)
    requires n >= 1 && m in {4, 100, 400}
    ensures n / m == (n - 1) / m + (if n % m == 0 then 1 else 0)
  {
    if m == 4 {
      assert n / 4 == (n - 1) / 4 + (if n % 4 == 0 then 1 else 0);
    } else if m == 100 {
      assert n / 100 == (n - 1) / 100 + (if n % 100 == 0 then 1 else 0);
    } else {
      assert n / 400 == (n - 1) / 400 + (if n % 400 == 0 then 1 else 0);
    }
  }

  /** Later years start later: at least 365 days per year in between. */
  lemma {:induction false} DaysBeforeYearMonotone(a: int, b: int)
    requires MinYear <= a <= b
    ensures DaysBeforeYear(a) + 365 * (b - a) <= DaysBeforeYear(b)
  {
    if a < b {
      DaysBeforeYearMonotone(a, b - 1);
      DaysBeforeYearStep(b - 1);
    }
  }

  /** Later months start later: at least 28 days per month in between. */
  lemma {:induction false} DaysBeforeMonthMonotone(year: int, a: int, b: int)
    requires 1 <= a <= b <= 13
    ensures DaysBeforeMonth(year, a) + 28 * (b - a) <= DaysBeforeMonth(year, b)
  {
    if a < b {
      DaysBeforeMonthMonotone(year, a, b - 1);
      MonthStep(year, b - 1);
    }
  }

  /** The ordinal of a valid date falls inside its own year and its own month. */
  lemma OrdinalWithinYear(d: Date)
    requires ValidDate(d)
    ensures DaysBeforeYear(d.year) < ToOrdinal(d) <= DaysBeforeYear(d.year) + DaysInYear(d.year)
  {
    DaysBeforeMonthMonotone(d.year, d.month + 1, 13);
    MonthStep(d.year, d.month);
    YearLength(d.year);
    DaysBeforeMonthBounds(d.year, d.month);
  }

  /** Finds the year holding day `n`, searching upward from `year`. */
  function YearOf(n: int, year: int): (r: int)
    requires MinYear <= year && DaysBeforeYear(year) < n
    ensures year <= r && DaysBeforeYear(r) < n <= DaysBeforeYear(r) + DaysInYear(r)
    decreases n - DaysBeforeYear(year)
  {
    DaysBeforeYearStep(year);
    if n <= DaysBeforeYear(year) + DaysInYear(year) then year else YearOf(n, year + 1)
  }

  /** Finds the month holding day `dayOfYear` of `year`, searching upward from `month`. */
  function MonthOf(year: int, dayOfYear: int, month: int): (r: int)
    requires 1 <= month <= 12
    requires DaysBeforeMonth(year, month) < dayOfYear <= DaysInYear(year)
    ensures month <= r <= 12
    ensures DaysBeforeMonth(year, r) < dayOfYear <= DaysBeforeMonth(year, r) + DaysInMonth(year, r)
    decreases 12 - month
  {
    YearLength(year);
    MonthStep(year, month);
    if dayOfYear <= DaysBeforeMonth(year, month) + DaysInMonth(year, month) then month
    else MonthOf(year, dayOfYear, month + 1)
  }

  /** Builds the date of day `n`: finds its year, then its month within the year. */
  function SearchOrdinal(n: int): (d: Date)
    requires n >= 1
    ensures ValidDate(d) && ToOrdinal(d) == n
  {
    var start := (n - 1) / 366 + 1;
    assert DaysBeforeYear(start) < n;
    var year := YearOf(n, start);
    var dayOfYear := n - DaysBeforeYear(year);
    var month := MonthOf(year, dayOfYear, 1);
    Date(year, month, dayOfYear - DaysBeforeMonth(year, month))
  }

  /** A date of an earlier year has a smaller ordinal. */
  lemma EarlierYearEarlierOrdinal(d1: Date, d2: Date)
    requires ValidDate(d1) && ValidDate(d2) && d1.year < d2.year
    ensures ToOrdinal(d1) < ToOrdinal(d2)
  {
    OrdinalWithinYear(d1);
    OrdinalWithinYear(d2);
    DaysBeforeYearStep(d1.year);
    DaysBeforeYearMonotone(d1.year + 1, d2.year);
  }

  /** Two valid dates with the same ordinal fall in the same year. */
  lemma OrdinalFixesYear(d1: Date, d2: Date)
    requires ValidDate(d1) && ValidDate(d2) && ToOrdinal(d1) == ToOrdinal(d2)
    ensures d1.year == d2.year
  {
    if d1.year < d2.year {
      EarlierYearEarlierOrdinal(d1, d2);
    } else if d2.year < d1.year {
      EarlierYearEarlierOrdinal(d2, d1);
    }
  }

  /** Within a year, a date of an earlier month has a smaller ordinal. */
  lemma EarlierMonthEarlierOrdinal(d1: Date, d2: Date)
    requires ValidDate(d1) && ValidDate(d2) && d1.year == d2.year && d1.month < d2.month
    ensures ToOrdinal(d1) < ToOrdinal(d2)
  {
    var y := d1.year;
    DaysBeforeMonthMonotone(y, d1.month + 1, d2.month);
    MonthStep(y, d1.month);
  }

  /** A date no later in the calendar has no larger ordinal. */
  lemma OrdinalMonotone(d1: Date, d2: Date)
    requires ValidDate(d1) && ValidDate(d2)
    requires d1.year < d2.year || (d1.year == d2.year && (d1.month < d2.month || (d1.month == d2.month && d1.day <= d2.day)))
    ensures ToOrdinal(d1) <= ToOrdinal(d2)
  {
    if d1.year < d2.year {
      EarlierYearEarlierOrdinal(d1, d2);
    } else if d1.month < d2.month {
      EarlierMonthEarlierOrdinal(d1, d2);
    }
  }

  /** Two valid dates with the same ordinal are the same date. */
  lemma ToOrdinalInjective(d1: Date, d2: Date)
    requires ValidDate(d1) && ValidDate(d2) && ToOrdinal(d1) == ToOrdinal(d2)
    ensures d1 == d2
  {
    OrdinalFixesYear(d1, d2);
    if d1.month < d2.month {
      EarlierMonthEarlierOrdinal(d1, d2);
    } else if d2.month < d1.month {
      EarlierMonthEarlierOrdinal(d2, d1);
    }
  }

  /**
   * `date.fromordinal`: the valid date whose ordinal is `n`.  There is one
   * (`SearchOrdinal` finds it) and only one (`ToOrdinalInjective`).
   */
  function FromOrdinal(n: int): (d: Date)
    requires n >= 1
    ensures ValidDate(d) && ToOrdinal(d) == n
  {
    assert ValidDate(SearchOrdinal(n)) && ToOrdinal(SearchOrdinal(n)) == n;
    assert forall d1, d2 :: ValidDate(d1) && ValidDate(d2) && ToOrdinal(d1) == n && ToOrdinal(d2) == n ==> d1 == d2 by {
      forall d1, d2 | ValidDate(d1) && ValidDate(d2) && ToOrdinal(d1) == n && ToOrdinal(d2) == n
        ensures d1 == d2
      {
        ToOrdinalInjective(d1, d2);
      }
    }
    var d :| ValidDate(d) && ToOrdinal(d) == n;
    d
  }

  /** Round trip: converting a valid date to its ordinal and back gives the date. */
  lemma FromToOrdinal(d: Date)
    requires ValidDate(d)
    ensures FromOrdinal(ToOrdinal(d)) == d
  {
    ToOrdinalInjective(FromOrdinal(ToOrdinal(d)), d);
  }

  /** A valid date is one `datetime` can hold exactly when its ordinal is at most 9999-12-31's. */
  lemma InRangeByOrdinal(d: Date)
    requires ValidDate(d)
    ensures InRange(d) <==> ToOrdinal(d) <= MaxOrdinal
  {
    OrdinalWithinYear(d);
    assert DaysBeforeYear(MaxYear + 1) == MaxOrdinal;
    if d.year <= MaxYear {
      DaysBeforeYearStep(d.year);
      DaysBeforeYearMonotone(d.year + 1, MaxYear + 1);
    } else {
      DaysBeforeYearMonotone(MaxYear + 1, d.year);
    }
  }

  /** The last day of a month is followed by the first day of the next month. */
  lemma DayAfterMonthEnd(year: int, month: int)
    requires MinYear <= year && 1 <= month <= 12
    ensures ValidDate(Date(year, month, DaysInMonth(year, month)))
    ensures !ValidDate(Date(year, month, DaysInMonth(year, month) + 1))
    ensures var next := if month == 12 then Date(year + 1, 1, 1) else Date(year, month + 1, 1);
            ValidDate(next) && ToOrdinal(next) == ToOrdinal(Date(year, month, DaysInMonth(year, month))) + 1
  {
    if month == 12 {
      YearLength(year);
      DaysBeforeYearStep(year);
    } else {
      MonthStep(year, month);
    }
  }
}
