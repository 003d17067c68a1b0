# Obeya planning: the period timeline

The Obeya planning scripts lay out a planning horizon of eighteen periods
from an anchor date:

- twelve weeks, week `i` running from anchor + 7i days to six days later;
- then six calendar months, starting with the month that holds
  anchor + 12 weeks (the "basis").

There are two scripts:

- `planning.py` prints the periods in a console. It keeps a counter for the
  weeks and one for the months, and ends with a summary whose end date is
  anchor + 12 weeks + 180 days.
- `planning_gui.py` does the same for a web page:
  - it builds a week table `donnees_semaines` with labels `S01`..`S12` and
    `%d/%m/%Y` date texts;
  - it reads that table back into a list of Gantt records `tasks`, each with
    an exclusive `Finish` and an `Order` of 0..17, and appends the six month
    records after them;
  - it sorts the records by `Order` into four column lists, colours each
    column by its type, and writes a hover text for each column;
  - it fills a project × column 0/1 matrix `z` for three sample projects.

The project is in five modules:

- `Calendar` (`calendar.dfy`): the Gregorian calendar the scripts rely on
  through `datetime` and `calendar`. It covers the leap-year rule, month
  lengths (`calendar.monthrange`), and day ordinals numbered as
  `date.toordinal` numbers them, with the conversion back (`date.fromordinal`).
  It proves:
  - the two conversions are inverse to each other;
  - ordinals are monotone in the calendar order;
  - the day after a month's last day is the first day of the next month.
- `DateText` (`date_text.dfy`): the `%d/%m/%Y` and `%d/%m` formats, the
  decimal year in a label, and a strict `%d/%m/%Y` reader, with the
  round-trip lemma.
- `Timeline` (`timeline.dfy`): the period arithmetic both scripts write out:
  - week `i`'s first and last day;
  - the basis;
  - the month-rollover formula `mois`/`annee`;
  - each month's first and last day.

  It also holds the properties of that arithmetic: contiguity, bounds, whole
  months, and the rollover stepping one calendar month at a time.
- `Planning` (`planning.dfy`): `planning.py` as one method with its two loops
  and counters, proved against `Timeline`, plus concrete lemmas for the
  behaviour the arithmetic really has.
- `PlanningGui` (`planning_gui.dfy`): `planning_gui.py`:
  - the week-table loop;
  - the two loops that fill `tasks`, with the exceptions they can raise as
    `None`;
  - the sort by `Order` and the column lists;
  - the colours and the hover texts;
  - the nested matrix loop;
  - the whole computing part of the page as one method.

The anchor date, which both scripts take from `datetime.now()`, is a parameter.

Two properties hold of the code as written:

- **Weeks and months overlap.** The first month period is the month that
  holds anchor + 84 days, so it usually starts before the last week ends
  (`Planning.WeeksAndMonthsOverlap`, `PlanningGui.WeeksMeetMonths`).
- **No date is looked up by period.** The matrix works on fixed column
  indices.

Two comments in the source do not match what the code computes:

- The summary line's comment calls its end date the end of the sixth month
  (planning.py:85). The end date is the basis plus 180 days. For anchor
  2024-01-01 it falls after the sixth month ends
  (`Planning.SummaryEndIsNotLastMonthEnd`). For anchor 2023-12-08 it falls
  before (`Planning.SummaryEndBeforeLastMonthEnd`).
- The comment on the sample project Beta says it spans weeks and months
  (planning_gui.py:164). Its columns 2..10 are all week columns
  (`PlanningGui.SampleProjectCells`).

## Model

| member | source | states |
|---|---|---|
| Calendar.IsLeap | planning.py:63 | the leap-year rule behind `calendar.monthrange`: divisible by 4, and not by 100 unless by 400. `Timeline.MonthPeriodLength` proves what it gives February |
| Calendar.ToOrdinal | planning.py:27-29 | `date.toordinal`: a valid date's day number, at least 1. `Calendar.ToOrdinalInjective` and `Calendar.OrdinalMonotone` prove it faithful to the calendar order |
| Calendar.FromOrdinal | planning.py:27-29 | `date.fromordinal`: the valid date whose ordinal is `n` |
| Timeline.DateOf | planning.py:27-29 | the date of an ordinal up to 9999-12-31's: a date `datetime` can hold, with that ordinal |
| Timeline.WeekStart | planning.py:27 | `date_debut + timedelta(weeks=i)` as a day number. `Timeline.WeeksContiguous` proves what it means |
| Timeline.WeekEnd | planning.py:29 | `date_semaine_debut + timedelta(days=6)` as a day number. `Timeline.WeeksContiguous` proves what it means |
| Timeline.MonthAt | planning.py:56-58 | the `mois`/`annee` rollover formula. `Timeline.MonthAtSteps` and `Timeline.MonthAtBounds` prove what it computes |
| Timeline.FirstDay | planning.py:65 | `datetime(annee, mois, 1)`. `Timeline.MonthPeriodIsWholeMonth` proves it valid |
| Timeline.LastDay | planning.py:63-67 | `datetime(annee, mois, monthrange(annee, mois)[1])`. `Timeline.MonthPeriodIsWholeMonth` proves it is the month's last day |
| Timeline.SummaryEnd | planning.py:86 | the summary's end date: the valid date 180 days after the basis, 264 days after the anchor |
| DateText.FormatDate | planning_gui.py:94-96 | `strftime('%d/%m/%Y')`. `DateText.ParseFormatDate` proves it can be read back |
| PlanningGui.MonthTask | planning_gui.py:128-136 | the record of one month. `PlanningGui.MonthTaskShape` proves its start, exclusive finish, type and `Order` |
| PlanningGui.HoverText | planning_gui.py:186 | the hover text of one column. `PlanningGui.HoverShowsDates` proves it shows the period's first and last day |
| Calendar.DaysInMonth | planning.py:63 | `calendar.monthrange(annee, mois)[1]` is always between 28 and 31 |
| Calendar.DaysBeforeYearStep | planning.py:63 | the closed-form count of days before a year grows by 366 exactly in the years divisible by 4 and not by 100 unless by 400, and by 365 otherwise |
| Calendar.ToOrdinalInjective | planning.py:27-29 | two valid dates with the same day ordinal are the same date, so `timedelta` arithmetic on ordinals determines the date |
| Calendar.OrdinalMonotone | planning.py:56-67 | a date no later in year/month/day order has no larger ordinal |
| Calendar.FromToOrdinal | planning.py:27-29 | converting a date to its ordinal and back gives the date |
| Calendar.InRangeByOrdinal | planning.py:27-29 | a date `datetime` can hold (year at most 9999) is exactly a valid date whose ordinal is at most that of 9999-12-31 |
| Calendar.DayAfterMonthEnd | planning.py:63-67 | the month's last day is a valid date, the day after it is not in the month, and its ordinal plus one is the ordinal of day 1 of the next month (of January next year after December) |
| DateText.ParseFormatDate | planning_gui.py:94-96 | reading `%d/%m/%Y` back from a date formatted with `%d/%m/%Y` gives the same date |
| DateText.ParseDate | planning_gui.py:116-117 | whatever the reader accepts is a date `datetime` can hold, and formatting it gives back the text that was read |
| DateText.Pad2 | planning_gui.py:92 | `{n:02d}` is two digits that read back as `n` |
| DateText.Decimal | planning_gui.py:135 | `{annee}` is a run of digits without a leading zero that reads back as the year |
| Timeline.MonthBasis | planning.py:46 | the basis is the valid date whose ordinal is the anchor's plus 84 |
| Timeline.WeeksContiguous | planning.py:25-29 | week 0 starts on the anchor, each week spans 6 days after its start, and week `i + 1` starts the day after week `i` ends |
| Timeline.BasisFollowsWeeks | planning.py:46 | the basis is the day after the twelfth week ends |
| Timeline.MonthAtSteps | planning.py:56-58 | month 0 is the basis' own month, month `i + 1` is the calendar month after month `i`, and the year goes up by one exactly when the month wraps from 12 to 1 |
| Timeline.MonthAtBounds | planning.py:56-58 | for each of the six months the month is in 1..12 and the year offset from the basis' year is between 0 and `(basis.month + 5) // 12` |
| Timeline.FirstMonthHoldsBasis | planning.py:46-58 | the first month period holds the basis date |
| Timeline.MonthPeriodIsWholeMonth | planning.py:63-67 | a month period starts on day 1 and ends on the last day of its month, spans the month's length, and is followed by day 1 of the next month |
| Timeline.MonthsContiguous | planning.py:56-67 | month period `j + 1` starts the day after month period `j` ends |
| Timeline.MonthsIncrease | planning.py:56-67 | a later month period starts and ends no earlier than an earlier one |
| Timeline.MonthsFitEach | planning.py:63-67 | when the sixth month ends before 9999-12-31, every month period lies in the range `datetime` can hold |
| Timeline.MonthPeriodLength | planning.py:63-67 | a month period is 29 days for February of a leap year, 28 days for any other February, 30 days for April, June, September and November, and 31 days otherwise |
| Planning.WeekLines | planning.py:21-34 | the first loop yields twelve lines and the counter ends at 12; line `i` is numbered `i + 1`, starts `7i` days after the anchor and ends 6 days later, before the basis |
| Planning.MonthLines | planning.py:48-76 | the second loop yields six lines and the counter ends at 6; line `j` is the `j`-th calendar month from the basis' month, with its French name and its day count |
| Planning.WeekLinesContiguous | planning.py:25-29 | consecutive week lines touch, and the day after the last one is the basis |
| Planning.MonthLineIsWholeMonth | planning.py:63-76 | each month line runs from day 1 to the month's last day, its name is `noms_mois[mois - 1]`, and its day count is the distance between the two dates |
| Planning.MonthLinesContiguous | planning.py:52-67 | the first month line holds the basis, and each month line starts the day after the previous one ends |
| Planning.SummaryDate | planning.py:86 | the summary's end date is the valid date 180 days after the basis |
| Planning.Run | planning.py:7-88 | the script yields 12 week lines and 6 month lines, both counters match, and the summary's end date is anchor + 84 + 180 days |
| Planning.WeeksAndMonthsOverlap | planning.py:25-58 | for anchor 2024-01-01 the last week is 2024-03-18..2024-03-24, the basis is 2024-03-25, and the first month is March 2024, which starts before the last week does |
| Planning.SummaryEndIsNotLastMonthEnd | planning.py:85-86 | for anchor 2024-01-01 the summary ends on 2024-09-21, after 2024-08-31, the end of the sixth month |
| Planning.SummaryEndBeforeLastMonthEnd | planning.py:85-86 | for anchor 2023-12-08 (basis 2024-03-01) the summary ends on 2024-08-28, three days before 2024-08-31, the end of the sixth month |
| Planning.LeapFebruaryPeriod | planning.py:63-67 | February 2024 is reached from anchor 2023-11-20 and spans 29 days |
| Planning.CenturyFebruaryPeriod | planning.py:63-67 | February 2100 is reached from anchor 2099-11-16 and spans 28 days |
| PlanningGui.WeekRows | planning_gui.py:80-101 | `donnees_semaines` has twelve entries, entry `i` being week `i`'s |
| PlanningGui.WeekRowMeaning | planning_gui.py:90-96 | entry `i` is labelled "S" and two digits reading `i + 1`, and its date texts read back as anchor + 7i and anchor + 7i + 6 days |
| PlanningGui.WeekLabelsDistinct | planning_gui.py:92 | the twelve labels "S01".."S12" are pairwise distinct |
| PlanningGui.RowTask | planning_gui.py:114-121 | a week record exists only when both texts parse; its start is the first date, its exclusive finish the last date plus one day, its type "Semaine" and its `Order` the position |
| PlanningGui.WeekTasks | planning_gui.py:114-121 | the first `tasks` loop succeeds exactly when every pass does, and then yields one record per entry, in order |
| PlanningGui.MonthPass | planning_gui.py:127-136 | one pass of the second loop succeeds exactly when day 1 of the following month is a date `datetime` can hold. Otherwise `datetime(annee, mois, 1)` or adding a day to 9999-12-31 raises. On success the record starts on day 1 of month `i` from the basis' month and finishes on day 1 of the next month, `DaysInMonth` days later, with type "Mois" and `Order` 12 + i |
| PlanningGui.MonthPastRange | planning_gui.py:127-136 | a month reaching 9999-12-31 leaves the last month out of range as well |
| PlanningGui.MonthTasks | planning_gui.py:123-136 | the second loop succeeds exactly when the sixth month ends before 9999-12-31, and then yields the six month records in order |
| PlanningGui.BuildTasks | planning_gui.py:111-136 | `tasks` is the week records followed by the six month records, and it is built exactly when both loops succeed |
| PlanningGui.RowTaskOfDates | planning_gui.py:116-121 | an entry holding two formatted dates reads back as the record of those two dates |
| PlanningGui.WeekRowTask | planning_gui.py:114-121 | reading back the page's own week entry `i` never raises and gives week `i`'s record |
| PlanningGui.WeekTaskShape | planning_gui.py:116-121 | week record `i` has type "Semaine" and `Order` i, starts on anchor + 7i and finishes 7 days later (exclusive), in range |
| PlanningGui.MonthTaskShape | planning_gui.py:127-136 | month record `j` has type "Mois" and `Order` 12 + j, starts on day 1 of its month and finishes on day 1 of the next month, as many days apart as the month is long |
| PlanningGui.WeekTasksContiguous | planning_gui.py:116-121 | each week record's exclusive finish is the next week record's start |
| PlanningGui.MonthTasksContiguous | planning_gui.py:127-136 | each month record's exclusive finish is the next month record's start |
| PlanningGui.WeeksMeetMonths | planning_gui.py:117-131 | the first month record starts no later than the last week record's exclusive finish (the basis), and on it exactly when the basis is day 1 of its month |
| PlanningGui.SortByOrder | planning_gui.py:142-149 | the sort by `Order` is a permutation of the records in non-decreasing `Order` |
| PlanningGui.InsertKeepsSorted | planning_gui.py:142-149 | inserting a record into a list sorted by `Order` keeps it sorted |
| PlanningGui.SortIsUnique | planning_gui.py:142-149 | any permutation sorted by `Order` of a list already in strictly increasing `Order` is that list, so the sort leaves `tasks` unchanged whatever algorithm it uses |
| PlanningGui.PeriodColumns | planning_gui.py:142-149 | the four column lists are as long as `tasks`, and for records in increasing `Order` column `k` holds record `k`'s label, type, start and finish |
| PlanningGui.ColorFor | planning_gui.py:154-155 | the colour is the default "#888888" exactly when the type is not in the colour map |
| PlanningGui.Colors | planning_gui.py:155 | one colour per column, the default exactly for types outside the map |
| PlanningGui.HoverTexts | planning_gui.py:186 | one hover text per column. A column from the ordinal of `first` to the day after `last` shows its label, then `first` and `last` formatted `%d/%m/%Y` |
| PlanningGui.WeekHoverShowsWeek | planning_gui.py:94-96 | the hover text of week `i` shows the same two date texts as week `i`'s entry in `donnees_semaines` |
| PlanningGui.HoverShowsDates | planning_gui.py:186 | taking a day off an exclusive finish recovers the last day: for any two dates `datetime` can hold, the hover text of the period from the first to the day after the last shows those two dates |
| PlanningGui.BuildMatrix | planning_gui.py:169-175 | `z` has one row per project, each as long as the column count, and cell `[p][idx]` is 1 exactly when `start <= idx <= end` and 0 otherwise |
| PlanningGui.MatrixRowIsBlock | planning_gui.py:171-174 | a row's ones form one contiguous block covering the overlap of the project's interval with the columns, and a row is all zeros when `start > end` |
| PlanningGui.SampleProjectCells | planning_gui.py:162-175 | with 18 columns, Alpha has 4 ones and Beta 9, neither reaching a month column, while Gamma has 13, every month column included |
| PlanningGui.GanttTasks | planning_gui.py:80-136 | fed with the page's own week table, the two loops never raise and yield the twelve week records and then the six month records |
| PlanningGui.GanttTasksInOrder | planning_gui.py:111-136 | the 18 records are in strictly increasing `Order`, "Semaine" for positions 0..11 and "Mois" for 12..17, each a non-empty period in range |
| PlanningGui.ChartColumns | planning_gui.py:142-186 | for records in increasing `Order` the columns follow the records, each colour is the type's and each hover text is the record's |
| PlanningGui.GanttPage | planning_gui.py:80-186 | the page's computation: 12 week entries, 18 records (weeks then months), aligned columns, blue for weeks and orange for months, a hover text per column, and the 0/1 matrix over the 18 columns |

## Left out

- The Streamlit page (layout, CSS, headers, metrics) and the Plotly figure (traces, layout, annotations) are user interface and are not modelled; only the lists they are given are.
- Printing is not modelled. The console lines are records holding their numbers, names and dates, not the printed text or its alignment.
- Day names from `strftime('%A')` depend on the locale and are left out, as is the ISO week number from `isocalendar()`, which is only displayed.
- `datetime.now()` is replaced by an anchor parameter. Only the calendar date is modelled; the time of day that `datetime.now()` carries (and `strptime` drops) is left out.
- Planning.Run, PlanningGui.GanttPage: they require every date the script computes to lie in years 1..9999 (`ConsoleFits`, `GuiFits`). Past that range Python raises an exception the scripts do not catch, and the model does not follow them there. Adding days past 9999-12-31 raises `OverflowError`. `datetime(10000, mois, 1)` raises `ValueError`, which happens for a basis in August to December 9999.
- Planning.MonthLines: it requires only a valid basis. For a basis in August to December 9999 it yields lines in year 10000, where planning.py:65 raises `ValueError`. `Planning.Run` excludes those anchors.
- PlanningGui.RowTask: the reader accepts exactly two-digit day, two-digit month and four-digit year fields. `strptime` also accepts one-digit day and month fields, and a space before a one-digit day. Any other leading, trailing or inner whitespace makes `strptime` raise, as the model's reader rejects it. The page's own table never produces a one-digit field or a space.
- DateText.FormatDate: `%Y` is written with four digits. Years below 1000 print differently on some platforms; the pad follows the four-digit form.
- PlanningGui.SortByOrder: pandas' `sort_values` is represented by an insertion sort. `SortIsUnique` shows that every sort meeting the same specification gives the same columns for these records.
- The hover text of a month column is stated through `PlanningGui.HoverTexts` with `PlanningGui.MonthTaskShape`, rather than by a lemma of its own.
- There is no lookup from a date to its period in either script, and none is modelled.
