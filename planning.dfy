/**
 * planning.py: the console planning.  It prints twelve weeks from the
 * anchor date, then six calendar months from the month holding the date
 * twelve weeks later, then a summary line.  The printed lines are modelled
 * as records (the day names and the layout of each line are left out);
 * week dates are day ordinals, month dates are calendar dates.
 */
module Planning {
  import opened Calendar
  import opened Timeline

  /** `Semaine {n:2d} : {start} - {end}`. */
  datatype WeekLine = WeekLine(number: int, start: Day, end: Day)

  /** `Mois {n:2d} : {name} {year} | {first} - {last} | ({days} jours)`. */
  datatype MonthLine = MonthLine(number: int, name: string, year: int, first: Date, last: Date, days: int)

  /** The line week `i` prints: number `i + 1`, from anchor + 7i days to six days later. */
  function WeekLineAt(anchor: Date, i: nat): WeekLine
    requires ValidDate(anchor)
  {
    WeekLine(i + 1, WeekStart(anchor, i), WeekEnd(anchor, i))
  }

  /** The line month period `j` prints: the `j`-th calendar month from the basis' month, whole. */
  function MonthLineAt(basis: Date, j: nat): MonthLine
    requires ValidDate(basis)
  {
    var ym := MonthAt(basis, j);
    MonthLine(j + 1, MonthNames[ym.month - 1], ym.year, FirstDay(ym), LastDay(ym), DaysInMonth(ym.year, ym.month))
  }

  /** The first loop: twelve week lines, counted by `compteur_semaine`. */
  method WeekLines(anchor: Date) returns (weeks: seq<WeekLine>, weekCount: int)
    requires WeeksFit(anchor)
    ensures weekCount == |weeks| == WeekCount
    ensures forall i :: 0 <= i < |weeks| ==>
              weeks[i] == WeekLineAt(anchor, i)
              && weeks[i].start == ToOrdinal(anchor) + 7 * i && weeks[i].end == weeks[i].start + 6
              && weeks[i].end < ToOrdinal(anchor) + BasisOffset <= MaxOrdinal
  {
    weekCount := 0;
    weeks := [];
    for i := 0 to WeekCount
      invariant weekCount == |weeks| == i
      invariant forall k :: 0 <= k < i ==> weeks[k] == WeekLineAt(anchor, k)
    {
      var start := ToOrdinal(anchor) + 7 * i;
      var end := start + 6;
      weekCount := weekCount + 1;
      weeks := weeks + [WeekLine(weekCount, start, end)];
    }
  }

  /** The second loop: six month lines from the basis' month, counted by `compteur_mois`. */
  method MonthLines(basis: Date) returns (months: seq<MonthLine>, monthCount: int)
    requires ValidDate(basis)
    ensures monthCount == |months| == MonthCount
    ensures forall j :: 0 <= j < |months| ==> months[j] == MonthLineAt(basis, j)
  {
    monthCount := 0;
    months := [];
    for i := 0 to MonthCount
      invariant monthCount == |months| == i
      invariant forall k :: 0 <= k < i ==> months[k] == MonthLineAt(basis, k)
    {
      var mois := (basis.month + i - 1) % 12 + 1;
      var annee := basis.year + (basis.month + i - 1) / 12;
      monthCount := monthCount + 1;
      var days := DaysInMonth(annee, mois);
      var first := Date(annee, mois, 1);
      var last := Date(annee, mois, days);
      var name := MonthNames[mois - 1];
      var line := MonthLine(monthCount, name, annee, first, last, days);
      MonthLinesGrow(basis, months, line);
      months := months + [line];
    }
  }

  /** Appending month period `|months|`'s line to the first `|months|` lines gives the first `|months| + 1`. */
  lemma MonthLinesGrow(basis: Date, months: seq<MonthLine>, line: MonthLine)
    requires ValidDate(basis) && line == MonthLineAt(basis, |months|)
    requires forall k :: 0 <= k < |months| ==> months[k] == MonthLineAt(basis, k)
    ensures forall k :: 0 <= k < |months| + 1 ==> (months + [line])[k] == MonthLineAt(basis, k)
  {
  }

  /** Week lines follow each other without gap: week `i + 1` starts the day after week `i` ends. */
  lemma WeekLinesContiguous(anchor: Date, i: nat)
    requires ValidDate(anchor)
    ensures WeekLineAt(anchor, 0).start == ToOrdinal(anchor)
    ensures WeekLineAt(anchor, i).end - WeekLineAt(anchor, i).start == 6
    ensures WeekLineAt(anchor, i + 1).start == WeekLineAt(anchor, i).end + 1
    ensures i == WeekCount - 1 ==> WeekLineAt(anchor, i).end + 1 == ToOrdinal(MonthBasis(anchor))
  {
    WeeksContiguous(anchor, i);
    BasisFollowsWeeks(anchor);
  }

  /**
   * Each month line describes a whole calendar month that `datetime` can
   * hold: it starts on day 1, ends on the month's last day, its day count is
   * the distance between the two, and its name is the month's French name.
   */
  lemma MonthLineIsWholeMonth(basis: Date, j: nat)
    requires ValidDate(basis) && j < MonthCount && MonthAt(basis, MonthCount - 1).year <= MaxYear
    ensures var l := MonthLineAt(basis, j);
            && InRange(l.first) && InRange(l.last)
            && l.first.day == 1 && l.first.year == l.last.year == l.year && l.first.month == l.last.month
            && l.name == MonthNames[l.first.month - 1]
            && ToOrdinal(l.last) - ToOrdinal(l.first) + 1 == l.days
            && !ValidDate(Date(l.year, l.first.month, l.days + 1))
  {
    MonthAtBounds(basis, j);
    MonthPeriodIsWholeMonth(MonthAt(basis, j));
  }

  /** Month lines follow each other without gap, and the first one holds the basis date. */
  lemma MonthLinesContiguous(basis: Date, j: nat)
    requires ValidDate(basis)
    ensures var l := MonthLineAt(basis, 0);
            l.year == basis.year && l.first.month == basis.month
            && ValidDate(l.first) && ValidDate(l.last) && ToOrdinal(l.first) <= ToOrdinal(basis) <= ToOrdinal(l.last)
    ensures ValidDate(MonthLineAt(basis, j + 1).first) && ValidDate(MonthLineAt(basis, j).last)
    ensures ToOrdinal(MonthLineAt(basis, j + 1).first) == ToOrdinal(MonthLineAt(basis, j).last) + 1
  {
    MonthAtSteps(basis, 0);
    FirstMonthHoldsBasis(basis);
    MonthsContiguous(basis, j);
  }

  /** The summary's end date: 180 days after the basis, still a date `datetime` can hold. */
  method SummaryDate(basis: Date) returns (end: Date)
    requires ValidDate(basis) && ToOrdinal(basis) + SummaryMonthsDays <= MaxOrdinal
    ensures InRange(end) && ToOrdinal(end) == ToOrdinal(basis) + SummaryMonthsDays
  {
    end := FromOrdinal(ToOrdinal(basis) + SummaryMonthsDays);
    InRangeByOrdinal(end);
  }

  /**
   * The whole script for one anchor date (the script reads it from
   * `datetime.now()`): the week lines, the month lines from the month
   * holding anchor + 12 weeks, the two counters and the summary's end date
   * anchor + 12 weeks + 180 days.
   */
  method Run(anchor: Date)
    returns (weeks: seq<WeekLine>, months: seq<MonthLine>, weekCount: int, monthCount: int, summaryEnd: Date)
    requires ConsoleFits(anchor)
    ensures weekCount == |weeks| == WeekCount && monthCount == |months| == MonthCount
    ensures forall i :: 0 <= i < |weeks| ==> weeks[i] == WeekLineAt(anchor, i)
    ensures forall j :: 0 <= j < |months| ==> months[j] == MonthLineAt(MonthBasis(anchor), j)
    ensures summaryEnd == SummaryEnd(anchor)
    ensures InRange(summaryEnd) && ToOrdinal(summaryEnd) == ToOrdinal(anchor) + BasisOffset + SummaryMonthsDays
  {
    weeks, weekCount := WeekLines(anchor);
    var basis := MonthBasis(anchor);
    months, monthCount := MonthLines(basis);
    summaryEnd := SummaryDate(basis);
    ToOrdinalInjective(summaryEnd, SummaryEnd(anchor));
  }

  /**
   * The week and month periods overlap.  With anchor 2024-01-01 the last
   * week is 2024-03-18..2024-03-24, the basis is 2024-03-25, and the first
   * month period is March 2024, which starts on 2024-03-01, before the last
   * week does: the months start at the month holding the basis, not at the
   * month after the weeks.  (`basis` is the month basis, fixed by its ordinal.)
   */
  lemma WeeksAndMonthsOverlap(basis: Date)
    requires ValidDate(basis) && ToOrdinal(basis) == ToOrdinal(Date(2024, 1, 1)) + BasisOffset
    ensures WeekStart(Date(2024, 1, 1), WeekCount - 1) == ToOrdinal(Date(2024, 3, 18))
    ensures WeekEnd(Date(2024, 1, 1), WeekCount - 1) == ToOrdinal(Date(2024, 3, 24))
    ensures basis == Date(2024, 3, 25)
    ensures MonthAt(basis, 0) == YearMonth(2024, 3)
    ensures ToOrdinal(FirstDay(MonthAt(basis, 0))) < WeekStart(Date(2024, 1, 1), WeekCount - 1)
  {
    ToOrdinalInjective(basis, Date(2024, 3, 25));
  }

  /**
   * The summary's end date is the basis plus 180 days, which need not be the
   * end of the sixth month period: for anchor 2024-01-01 it is 2024-09-21,
   * while the sixth month period, August 2024, ends on 2024-08-31.
   */
  lemma SummaryEndIsNotLastMonthEnd(basis: Date, summaryEnd: Date)
    requires ValidDate(basis) && ToOrdinal(basis) == ToOrdinal(Date(2024, 1, 1)) + BasisOffset
    requires ValidDate(summaryEnd) && ToOrdinal(summaryEnd) == ToOrdinal(basis) + SummaryMonthsDays
    ensures summaryEnd == Date(2024, 9, 21)
    ensures MonthAt(basis, MonthCount - 1) == YearMonth(2024, 8)
    ensures LastDay(MonthAt(basis, MonthCount - 1)) == Date(2024, 8, 31)
    ensures summaryEnd != LastDay(MonthAt(basis, MonthCount - 1))
  {
    ToOrdinalInjective(basis, Date(2024, 3, 25));
    ToOrdinalInjective(summaryEnd, Date(2024, 9, 21));
  }

  /**
   * The summary can also end before the sixth month period does: for anchor
   * 2023-12-08 the basis is 2024-03-01, the summary ends on 2024-08-28, and
   * the sixth month period, August 2024, ends on 2024-08-31.
   */
  lemma SummaryEndBeforeLastMonthEnd(basis: Date, summaryEnd: Date)
    requires ValidDate(basis) && ToOrdinal(basis) == ToOrdinal(Date(2023, 12, 8)) + BasisOffset
    requires ValidDate(summaryEnd) && ToOrdinal(summaryEnd) == ToOrdinal(basis) + SummaryMonthsDays
    ensures basis == Date(2024, 3, 1) && summaryEnd == Date(2024, 8, 28)
    ensures MonthAt(basis, MonthCount - 1) == YearMonth(2024, 8)
    ensures LastDay(MonthAt(basis, MonthCount - 1)) == Date(2024, 8, 31)
    ensures ToOrdinal(summaryEnd) + 3 == ToOrdinal(LastDay(MonthAt(basis, MonthCount - 1)))
  {
    BasisOfDecember8();
    ToOrdinalInjective(basis, Date(2024, 3, 1));
    AugustEnd2024();
    ToOrdinalInjective(summaryEnd, Date(2024, 8, 28));
  }

  /** 2023-12-08 plus twelve weeks is 2024-03-01, across the leap day. */
  lemma BasisOfDecember8()
    ensures ToOrdinal(Date(2024, 3, 1)) == ToOrdinal(Date(2023, 12, 8)) + BasisOffset
  {
    assert ToOrdinal(Date(2023, 12, 8)) == 738862;
    assert ToOrdinal(Date(2024, 3, 1)) == 738946;
  }

  /** 2024-03-01 plus 180 days is 2024-08-28, three days before the end of August. */
  lemma AugustEnd2024()
    ensures ToOrdinal(Date(2024, 8, 28)) == ToOrdinal(Date(2024, 3, 1)) + SummaryMonthsDays
    ensures ToOrdinal(Date(2024, 8, 31)) == ToOrdinal(Date(2024, 8, 28)) + 3
  {
    assert ToOrdinal(Date(2024, 3, 1)) == 738946;
    assert ToOrdinal(Date(2024, 8, 28)) == 739126;
  }

  /**
   * A month period on February of a leap year spans 29 days (anchor
   * 2023-11-20, basis 2024-02-12); on February of 2100, a century year not
   * divisible by 400, it spans 28 days (anchor 2099-11-16, basis 2100-02-08).
   */
  lemma LeapFebruaryPeriod(basis: Date)
    requires ValidDate(basis) && ToOrdinal(basis) == ToOrdinal(Date(2023, 11, 20)) + BasisOffset
    ensures basis == Date(2024, 2, 12) && MonthAt(basis, 0) == YearMonth(2024, 2)
    ensures ToOrdinal(LastDay(MonthAt(basis, 0))) - ToOrdinal(FirstDay(MonthAt(basis, 0))) + 1 == 29
  {
    BasisOfNovember20();
    ToOrdinalInjective(basis, Date(2024, 2, 12));
    MonthPeriodIsWholeMonth(YearMonth(2024, 2));
  }

  /** 2023-11-20 plus twelve weeks is 2024-02-12. */
  lemma BasisOfNovember20()
    ensures ToOrdinal(Date(2024, 2, 12)) == ToOrdinal(Date(2023, 11, 20)) + BasisOffset
  {
    assert ToOrdinal(Date(2023, 11, 20)) == 738844;
    assert ToOrdinal(Date(2024, 2, 12)) == 738928;
  }

  lemma CenturyFebruaryPeriod(basis: Date)
    requires ValidDate(basis) && ToOrdinal(basis) == ToOrdinal(Date(2099, 11, 16)) + BasisOffset
    ensures basis == Date(2100, 2, 8) && MonthAt(basis, 0) == YearMonth(2100, 2)
    ensures ToOrdinal(LastDay(MonthAt(basis, 0))) - ToOrdinal(FirstDay(MonthAt(basis, 0))) + 1 == 28
  {
    BasisOfNovember16();
    ToOrdinalInjective(basis, Date(2100, 2, 8));
    MonthPeriodIsWholeMonth(YearMonth(2100, 2));
  }

  /** 2099-11-16 plus twelve weeks is 2100-02-08. */
  lemma BasisOfNovember16()
    ensures ToOrdinal(Date(2100, 2, 8)) == ToOrdinal(Date(2099, 11, 16)) + BasisOffset
  {
    assert ToOrdinal(Date(2099, 11, 16)) == 766599;
    assert ToOrdinal(Date(2100, 2, 8)) == 766683;
  }
}
