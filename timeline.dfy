/**
 * The period arithmetic that planning.py and planning_gui.py each write out:
 * twelve weeks from the anchor date, then six calendar months counted from
 * the month that holds the date twelve weeks after the anchor.  Both scripts'
 * loops are proved against the functions here.
 *
 * `date + timedelta(days=k)` is ordinal arithmetic, so the week dates are
 * day ordinals; the month dates are built from year, month and day, as the
 * scripts build them with `datetime(annee, mois, jour)`.
 */
module Timeline {
  import opened Calendar

  /** A day ordinal, numbered as `date.toordinal()` numbers days. */
  type Day = int

  const WeekCount := 12
  const MonthCount := 6

  /** `timedelta(weeks=12)`: the offset of the month basis from the anchor. */
  const BasisOffset := 7 * WeekCount

  /** `timedelta(days=180)`: added to the basis for the summary's end date. */
  const SummaryMonthsDays := 180

  /** The French month names, indexed by `mois - 1`. */
  const MonthNames: seq<string> := ["Janvier", "Février", "Mars", "Avril", "Mai", "Juin",
                                    "Juillet", "Août", "Septembre", "Octobre", "Novembre", "Décembre"]

  /** `date_debut + timedelta(weeks=i)`: the first day of week `i`. */
  function WeekStart(anchor: Date, i: nat): Day
    requires ValidDate(anchor)
  {
    ToOrdinal(anchor) + 7 * i
  }

  /** `date_semaine_debut + timedelta(days=6)`: the last day of week `i`. */
  function WeekEnd(anchor: Date, i: nat): Day
    requires ValidDate(anchor)
  {
    WeekStart(anchor, i) + 6
  }

  /** `date_debut + timedelta(weeks=12)`: the date whose month opens the month periods. */
  function MonthBasis(anchor: Date): (d: Date)
    requires ValidDate(anchor)
    ensures ValidDate(d) && ToOrdinal(d) == ToOrdinal(anchor) + BasisOffset
  {
    FromOrdinal(ToOrdinal(anchor) + BasisOffset)
  }

  datatype YearMonth = YearMonth(year: int, month: int)

  /** Month `i` counted from the basis' month: `mois` and `annee` of both scripts. */
  function MonthAt(basis: Date, i: nat): YearMonth
  {
    YearMonth(basis.year + (basis.month + i - 1) / 12, (basis.month + i - 1) % 12 + 1)
  }

  /** The calendar month after `ym`: December rolls over to January of the next year. */
  function NextMonth(ym: YearMonth): YearMonth
  {
    if ym.month == 12 then YearMonth(ym.year + 1, 1) else YearMonth(ym.year, ym.month + 1)
  }

  predicate ValidMonth(ym: YearMonth) {
    MinYear <= ym.year && 1 <= ym.month <= 12
  }

  /** `datetime(annee, mois, 1)`. */
  function FirstDay(ym: YearMonth): Date
  {
    Date(ym.year, ym.month, 1)
  }

  /** `datetime(annee, mois, calendar.monthrange(annee, mois)[1])`. */
  function LastDay(ym: YearMonth): Date
    requires ValidMonth(ym)
  {
    Date(ym.year, ym.month, DaysInMonth(ym.year, ym.month))
  }

  /** The summary's end date: `date_debut + timedelta(weeks=12) + timedelta(days=180)`. */
  function SummaryEnd(anchor: Date): (d: Date)
    requires ValidDate(anchor)
    ensures ValidDate(d) && ToOrdinal(d) == ToOrdinal(MonthBasis(anchor)) + SummaryMonthsDays
  {
    FromOrdinal(ToOrdinal(MonthBasis(anchor)) + SummaryMonthsDays)
  }

  /** The date of a day ordinal `datetime` can hold: `date.fromordinal`. */
  function DateOf(n: Day): (d: Date)
    requires 1 <= n <= MaxOrdinal
    ensures InRange(d) && ToOrdinal(d) == n
  {
    InRangeByOrdinal(FromOrdinal(n));
    FromOrdinal(n)
  }

  /** Every week date, and the basis, are dates `datetime` can hold. */
  predicate WeeksFit(anchor: Date) {
    InRange(anchor) && ToOrdinal(anchor) + BasisOffset <= MaxOrdinal
  }

  /** The day after the last of the six months from `basis` is a date `datetime` can hold. */
  predicate MonthsFit(basis: Date) {
    ValidDate(basis) && ToOrdinal(LastDay(MonthAt(basis, MonthCount - 1))) < MaxOrdinal
  }

  /** No date planning.py computes leaves the range `datetime` can hold. */
  predicate ConsoleFits(anchor: Date) {
    WeeksFit(anchor)
    && ToOrdinal(anchor) + BasisOffset + SummaryMonthsDays <= MaxOrdinal
    && MonthAt(MonthBasis(anchor), MonthCount - 1).year <= MaxYear
  }

  /** No date planning_gui.py computes leaves the range, the exclusive end of the last month included. */
  predicate GuiFits(anchor: Date) {
    WeeksFit(anchor) && MonthsFit(MonthBasis(anchor))
  }

  /** Week `i + 1` starts the day after week `i` ends, and week 0 starts on the anchor. */
  lemma WeeksContiguous(anchor: Date, i: nat)
    requires ValidDate(anchor)
    ensures WeekStart(anchor, 0) == ToOrdinal(anchor)
    ensures WeekEnd(anchor, i) - WeekStart(anchor, i) == 6
    ensures WeekStart(anchor, i + 1) == WeekEnd(anchor, i) + 1
  {
  }

  /** The day after the last week is the month basis. */
  lemma BasisFollowsWeeks(anchor: Date)
    requires ValidDate(anchor)
    ensures ToOrdinal(MonthBasis(anchor)) == WeekEnd(anchor, WeekCount - 1) + 1
  {
  }

  /**
   * The rollover formula walks the calendar one month at a time from the
   * basis' own month: the year goes up by one exactly when the month wraps
   * from 12 to 1.
   */
  lemma {:induction false} MonthAtSteps(basis: Date, i: nat)
    requires ValidDate(basis)
    ensures MonthAt(basis, 0) == YearMonth(basis.year, basis.month)
    ensures MonthAt(basis, i + 1) == NextMonth(MonthAt(basis, i))
    ensures MonthAt(basis, i + 1).year == MonthAt(basis, i).year + (if MonthAt(basis, i).month == 12 then 1 else 0)
  {
    var k := basis.month + i - 1;
    assert (k + 1) / 12 == k / 12 + (if k % 12 == 11 then 1 else 0);
    assert (k + 1) % 12 == if k % 12 == 11 then 0 else k % 12 + 1;
  }

  /** Every month index lands on a month 1..12 of a year at most `(basis.month + 5) / 12` ahead. */
  lemma MonthAtBounds(basis: Date, i: nat)
    requires ValidDate(basis) && i < MonthCount
    ensures ValidMonth(MonthAt(basis, i))
    ensures 0 <= MonthAt(basis, i).year - basis.year <= (basis.month + MonthCount - 1) / 12
    ensures MonthAt(basis, i).year <= MonthAt(basis, MonthCount - 1).year
  {
  }

  /** The first month period is the month that holds the basis. */
  lemma FirstMonthHoldsBasis(basis: Date)
    requires ValidDate(basis)
    ensures ValidMonth(MonthAt(basis, 0))
    ensures ToOrdinal(FirstDay(MonthAt(basis, 0))) <= ToOrdinal(basis) <= ToOrdinal(LastDay(MonthAt(basis, 0)))
  {
    MonthAtSteps(basis, 0);
  }

  /**
   * A month period is the whole month: it starts on day 1, ends on the
   * month's last day (the day after it is not in the month), it is as long
   * as the month, and the day after it is the first day of the next month.
   */
  lemma MonthPeriodIsWholeMonth(ym: YearMonth)
    requires ValidMonth(ym)
    ensures ValidDate(FirstDay(ym)) && ValidDate(LastDay(ym)) && ValidDate(FirstDay(NextMonth(ym)))
    ensures !ValidDate(Date(ym.year, ym.month, DaysInMonth(ym.year, ym.month) + 1))
    ensures ToOrdinal(LastDay(ym)) - ToOrdinal(FirstDay(ym)) + 1 == DaysInMonth(ym.year, ym.month)
    ensures ToOrdinal(FirstDay(NextMonth(ym))) == ToOrdinal(LastDay(ym)) + 1
  {
    DayAfterMonthEnd(ym.year, ym.month);
  }

  /** A month period's first day is no later than its last day. */
  lemma MonthPeriodNonEmpty(ym: YearMonth)
    requires ValidMonth(ym)
    ensures ValidDate(FirstDay(ym)) && ValidDate(LastDay(ym))
    ensures ToOrdinal(FirstDay(ym)) <= ToOrdinal(LastDay(ym))
  {
    MonthPeriodIsWholeMonth(ym);
  }

  /** Month period `j + 1` starts the day after month period `j` ends. */
  lemma MonthsContiguous(basis: Date, j: nat)
    requires ValidDate(basis)
    ensures ValidMonth(MonthAt(basis, j)) && ValidMonth(MonthAt(basis, j + 1))
    ensures ToOrdinal(FirstDay(MonthAt(basis, j + 1))) == ToOrdinal(LastDay(MonthAt(basis, j))) + 1
  {
    MonthAtSteps(basis, j);
    MonthPeriodIsWholeMonth(MonthAt(basis, j));
  }

  /** Later month periods start and end later. */
  lemma MonthsIncrease(basis: Date, j: nat, k: nat)
    requires ValidDate(basis) && j <= k
    ensures ValidMonth(MonthAt(basis, j)) && ValidMonth(MonthAt(basis, k))
    ensures ToOrdinal(FirstDay(MonthAt(basis, j))) <= ToOrdinal(FirstDay(MonthAt(basis, k)))
    ensures ToOrdinal(LastDay(MonthAt(basis, j))) <= ToOrdinal(LastDay(MonthAt(basis, k)))
  {
    var a, b := MonthAt(basis, j), MonthAt(basis, k);
    assert a.year < b.year || (a.year == b.year && a.month <= b.month);
    MonthPeriodNonEmpty(a);
    MonthPeriodNonEmpty(b);
    OrdinalMonotone(FirstDay(a), FirstDay(b));
    OrdinalMonotone(LastDay(a), LastDay(b));
  }

  /** Every one of the six month periods ends before the day after the last one. */
  lemma MonthsFitEach(basis: Date, j: nat)
    requires MonthsFit(basis) && j < MonthCount
    ensures ValidMonth(MonthAt(basis, j))
    ensures InRange(FirstDay(MonthAt(basis, j))) && InRange(LastDay(MonthAt(basis, j)))
    ensures ToOrdinal(FirstDay(MonthAt(basis, j))) <= ToOrdinal(LastDay(MonthAt(basis, j))) < MaxOrdinal
  {
    MonthsIncrease(basis, j, MonthCount - 1);
    MonthPeriodIsWholeMonth(MonthAt(basis, j));
    InRangeByOrdinal(FirstDay(MonthAt(basis, j)));
    InRangeByOrdinal(LastDay(MonthAt(basis, j)));
  }

  /** A month period's length: 30 or 31, or for February 29 in a leap year and 28 otherwise. */
  lemma MonthPeriodLength(ym: YearMonth)
    requires ValidMonth(ym)
    ensures var n := ToOrdinal(LastDay(ym)) - ToOrdinal(FirstDay(ym)) + 1;
            if ym.month == 2 then n == (if IsLeap(ym.year) then 29 else 28)
            else n == (if ym.month in {4, 6, 9, 11} then 30 else 31)
  {
    MonthPeriodIsWholeMonth(ym);
  }
}
