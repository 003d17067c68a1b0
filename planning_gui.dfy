/**
 * planning_gui.py: the Streamlit page.  It builds the table of the twelve
 * weeks as text, reads those texts back into the Gantt period list together
 * with the six months, sorts that list by `Order` into the chart's columns,
 * colours the columns by type, writes each column's hover text, and fills
 * the project x period matrix `z`.  The page setup and the Plotly figure
 * are left out; what they are given is modelled.
 */
module PlanningGui {
  import opened Calendar
  import opened DateText
  import opened Timeline

  // ---------------------------------------------------------------------------
  // The week table `donnees_semaines`
  // ---------------------------------------------------------------------------

  /** One entry of `donnees_semaines`: "Semaine", "Date de début", "Date de fin". */
  datatype WeekRow = WeekRow(week: string, startText: string, endText: string)

  /** `f"S{i+1:02d}"`. */
  function WeekLabel(i: nat): string
    requires i < 99
  {
    "S" + Pad2(i + 1)
  }

  /** The entry week `i` should produce. */
  function WeekRowAt(anchor: Date, i: nat): WeekRow
    requires WeeksFit(anchor) && i < WeekCount
  {
    WeekRow(WeekLabel(i), FormatDate(DateOf(WeekStart(anchor, i))), FormatDate(DateOf(WeekEnd(anchor, i))))
  }

  /** The loop that appends the twelve entries of `donnees_semaines`. */
  method WeekRows(anchor: Date) returns (rows: seq<WeekRow>)
    requires WeeksFit(anchor)
    ensures |rows| == WeekCount
    ensures forall i :: 0 <= i < |rows| ==> rows[i] == WeekRowAt(anchor, i)
  {
    rows := [];
    for i := 0 to WeekCount
      invariant |rows| == i
      invariant forall k :: 0 <= k < i ==> rows[k] == WeekRowAt(anchor, k)
    {
      var start := WeekStart(anchor, i);
      var end := WeekEnd(anchor, i);
      var row := WeekRow(WeekLabel(i), FormatDate(DateOf(start)), FormatDate(DateOf(end)));
      WeekRowsGrow(anchor, rows, row);
      rows := rows + [row];
    }
  }

  /** Appending week `|rows|`'s entry to the first `|rows|` entries gives the first `|rows| + 1`. */
  lemma WeekRowsGrow(anchor: Date, rows: seq<WeekRow>, row: WeekRow)
    requires WeeksFit(anchor) && |rows| < WeekCount && row == WeekRowAt(anchor, |rows|)
    requires forall k :: 0 <= k < |rows| ==> rows[k] == WeekRowAt(anchor, k)
    ensures forall k :: 0 <= k < |rows| + 1 ==> (rows + [row])[k] == WeekRowAt(anchor, k)
  {
  }

  /**
   * Entry `i` is labelled "S" and the two digits of `i + 1` ("S01".."S12"),
   * and its two texts read back as week `i`'s first day (anchor + 7i) and
   * last day (six days later).
   */
  lemma WeekRowMeaning(anchor: Date, i: nat)
    requires WeeksFit(anchor) && i < WeekCount
    ensures var row := WeekRowAt(anchor, i);
            && |row.week| == 3 && row.week[0] == 'S'
            && AllDigits(row.week[1..]) && Value2(row.week[1..]) == i + 1
            && ParseDate(row.startText).Some? && ToOrdinal(ParseDate(row.startText).value) == ToOrdinal(anchor) + 7 * i
            && ParseDate(row.endText).Some? && ToOrdinal(ParseDate(row.endText).value) == ToOrdinal(anchor) + 7 * i + 6
  {
    var row := WeekRowAt(anchor, i);
    assert row.week[1..] == Pad2(i + 1);
    ParseFormatDate(DateOf(WeekStart(anchor, i)));
    ParseFormatDate(DateOf(WeekEnd(anchor, i)));
  }

  /** The week labels "S01".."S12" are pairwise distinct. */
  lemma WeekLabelsDistinct(i: nat, j: nat)
    requires i < WeekCount && j < WeekCount && WeekLabel(i) == WeekLabel(j)
    ensures i == j
  {
    assert WeekLabel(i)[1..] == Pad2(i + 1);
    assert WeekLabel(j)[1..] == Pad2(j + 1);
  }

  // ---------------------------------------------------------------------------
  // The Gantt period list `tasks`
  // ---------------------------------------------------------------------------

  /**
   * One record of `tasks`.  `start` and `finish` are day ordinals; `finish`
   * is exclusive, the day after the period's last day.
   */
  datatype Task = Task(name: string, start: Day, finish: Day, kind: string, order: int)

  const WeekKind := "Semaine"
  const MonthKind := "Mois"

  /**
   * One pass of the first `tasks` loop: parse the entry's two dates, add a
   * day to the end, and label the record with the entry's label and the
   * start's day and month.  `None` is the exception the pass would raise:
   * `strptime`'s ValueError on a text that is not a `%d/%m/%Y` date, or the
   * OverflowError of adding a day to 9999-12-31.
   */
  function RowTask(row: WeekRow, i: int): (r: Option<Task>)
    ensures r.Some? ==> ParseDate(row.startText).Some? && ParseDate(row.endText).Some?
    ensures r.Some? ==> r.value.start == ToOrdinal(ParseDate(row.startText).value)
                        && r.value.finish == ToOrdinal(ParseDate(row.endText).value) + 1 <= MaxOrdinal
                        && r.value.kind == WeekKind && r.value.order == i
  {
    match ParseDate(row.startText)
    case None => None
    case Some(start) =>
      match ParseDate(row.endText)
      case None => None
      case Some(end) =>
        if ToOrdinal(end) + 1 > MaxOrdinal then None
        else Some(Task(row.week + " (" + FormatDayMonth(start) + ")", ToOrdinal(start), ToOrdinal(end) + 1, WeekKind, i))
  }

  /** The record of a month: "Mars 2024", day 1 to the first day of the next month (exclusive). */
  function MonthTask(ym: YearMonth, order: int): Task
    requires ValidMonth(ym)
  {
    Task(MonthNames[ym.month - 1] + " " + Decimal(ym.year), ToOrdinal(FirstDay(ym)), ToOrdinal(LastDay(ym)) + 1,
         MonthKind, order)
  }

  /** The record of month period `j`: the `j`-th month from the basis' month, `Order` 12 + j. */
  function MonthTaskAt(basis: Date, j: nat): Task
    requires ValidDate(basis)
  {
    MonthTask(MonthAt(basis, j), WeekCount + j)
  }

  /**
   * The first loop that fills `tasks`: one record per entry of `rows`, in
   * order.  The result is `None` exactly when one of the passes raises.
   */
  method WeekTasks(rows: seq<WeekRow>) returns (tasks: Option<seq<Task>>)
    ensures tasks.Some? <==> forall i :: 0 <= i < |rows| ==> RowTask(rows[i], i).Some?
    ensures tasks.Some? ==>
              |tasks.value| == |rows| && forall i :: 0 <= i < |rows| ==> tasks.value[i] == RowTask(rows[i], i).value
  {
    var acc: seq<Task> := [];
    for i := 0 to |rows|
      invariant |acc| == i
      invariant forall k :: 0 <= k < i ==> RowTask(rows[k], k).Some? && acc[k] == RowTask(rows[k], k).value
    {
      var start := ParseDate(rows[i].startText);
      if start.None? {
        return None;
      }
      var end := ParseDate(rows[i].endText);
      if end.None? {
        return None;
      }
      var finish := ToOrdinal(end.value) + 1;
      if finish > MaxOrdinal {
        return None;
      }
      var name := rows[i].week + " (" + FormatDayMonth(start.value) + ")";
      acc := acc + [Task(name, ToOrdinal(start.value), finish, WeekKind, i)];
    }
    tasks := Some(acc);
  }

  /**
   * One pass of the second `tasks` loop: month `i` from the basis' month,
   * `None` when `datetime(annee, mois, ...)` raises (a year past 9999) or
   * adding a day to the month's last day does (it is 9999-12-31).
   */
  method MonthPass(basis: Date, i: nat) returns (task: Option<Task>)
    requires ValidDate(basis)
    ensures task.Some? <==> InRange(FirstDay(NextMonth(MonthAt(basis, i))))
    ensures task.Some? <==> ToOrdinal(LastDay(MonthAt(basis, i))) < MaxOrdinal
    ensures task.Some? ==> task.value == MonthTaskAt(basis, i)
    ensures task.Some? ==>
              var ym := MonthAt(basis, i);
              && task.value.start == ToOrdinal(FirstDay(ym)) && task.value.finish == ToOrdinal(FirstDay(NextMonth(ym)))
              && task.value.finish - task.value.start == DaysInMonth(ym.year, ym.month)
              && task.value.kind == MonthKind && task.value.order == WeekCount + i
  {
    var mois := (basis.month + i - 1) % 12 + 1;
    var annee := basis.year + (basis.month + i - 1) / 12;
    var ym := YearMonth(annee, mois);
    assert ym == MonthAt(basis, i);
    var first := Date(annee, mois, 1);
    var last := Date(annee, mois, DaysInMonth(annee, mois));
    assert first == FirstDay(ym) && last == LastDay(ym);
    MonthPeriodIsWholeMonth(ym);
    InRangeByOrdinal(FirstDay(NextMonth(ym)));
    if ToOrdinal(last) >= MaxOrdinal {
      return None;
    }
    var name := MonthNames[mois - 1];
    task := Some(Task(name + " " + Decimal(annee), ToOrdinal(first), ToOrdinal(last) + 1, MonthKind, WeekCount + i));
  }

  /** A month that ends on or after 9999-12-31 leaves the later months out of range too. */
  lemma MonthPastRange(basis: Date, i: nat)
    requires ValidDate(basis) && i < MonthCount && ToOrdinal(LastDay(MonthAt(basis, i))) >= MaxOrdinal
    ensures !MonthsFit(basis)
  {
    MonthsIncrease(basis, i, MonthCount - 1);
  }

  /**
   * The second loop that fills `tasks`: the six months from the basis'
   * month.  The result is `None` exactly when a month lies past
   * 9999-12-31 or ends on it.
   */
  method MonthTasks(basis: Date) returns (tasks: Option<seq<Task>>)
    requires ValidDate(basis)
    ensures tasks.Some? <==> MonthsFit(basis)
    ensures tasks.Some? ==>
              |tasks.value| == MonthCount && forall j :: 0 <= j < MonthCount ==> tasks.value[j] == MonthTaskAt(basis, j)
  {
    var acc: seq<Task> := [];
    for i := 0 to MonthCount
      invariant |acc| == i
      invariant forall k :: 0 <= k < i ==> acc[k] == MonthTaskAt(basis, k)
      invariant i == MonthCount ==> MonthsFit(basis)
    {
      var task := MonthPass(basis, i);
      if task.None? {
        MonthPastRange(basis, i);
        return None;
      }
      if i == MonthCount - 1 {
        assert MonthsFit(basis);
      }
      MonthTasksGrow(basis, acc, task.value);
      acc := acc + [task.value];
    }
    tasks := Some(acc);
  }

  /** Appending month `|acc|`'s record to the first `|acc|` month records gives the first `|acc| + 1`. */
  lemma MonthTasksGrow(basis: Date, acc: seq<Task>, t: Task)
    requires ValidDate(basis) && t == MonthTaskAt(basis, |acc|)
    requires forall k :: 0 <= k < |acc| ==> acc[k] == MonthTaskAt(basis, k)
    ensures forall k :: 0 <= k < |acc| + 1 ==> (acc + [t])[k] == MonthTaskAt(basis, k)
  {
  }

  /** `tasks`: the records of `rows`, then the six months; `None` when either loop raises. */
  method BuildTasks(basis: Date, rows: seq<WeekRow>) returns (tasks: Option<seq<Task>>)
    requires ValidDate(basis)
    ensures tasks.Some? <==> (forall i :: 0 <= i < |rows| ==> RowTask(rows[i], i).Some?) && MonthsFit(basis)
    ensures tasks.Some? ==>
              |tasks.value| == |rows| + MonthCount
              && (forall i :: 0 <= i < |rows| ==> tasks.value[i] == RowTask(rows[i], i).value)
              && (forall j :: 0 <= j < MonthCount ==> tasks.value[|rows| + j] == MonthTaskAt(basis, j))
  {
    var weeks := WeekTasks(rows);
    if weeks.None? {
      return None;
    }
    var months := MonthTasks(basis);
    if months.None? {
      return None;
    }
    tasks := Some(weeks.value + months.value);
  }

  /** Week `i`'s record, from the week's ordinals: label "Sxx (dd/mm)", exclusive finish. */
  function WeekTaskAt(anchor: Date, i: nat): Task
    requires WeeksFit(anchor) && i < WeekCount
  {
    Task(WeekLabel(i) + " (" + FormatDayMonth(DateOf(WeekStart(anchor, i))) + ")",
         WeekStart(anchor, i), WeekEnd(anchor, i) + 1, WeekKind, i)
  }

  /** Reading an entry of `donnees_semaines` back never fails and gives the week's own record. */
  lemma WeekRowTask(anchor: Date, i: nat)
    requires WeeksFit(anchor) && i < WeekCount
    ensures RowTask(WeekRowAt(anchor, i), i) == Some(WeekTaskAt(anchor, i))
  {
    var start, end := DateOf(WeekStart(anchor, i)), DateOf(WeekEnd(anchor, i));
    assert WeekTaskAt(anchor, i)
             == Task(WeekLabel(i) + " (" + FormatDayMonth(start) + ")", ToOrdinal(start), ToOrdinal(end) + 1, WeekKind, i);
    RowTaskOfDates(WeekLabel(i), start, end, i);
  }

  /** An entry holding two formatted dates reads back as the record of those two dates. */
  lemma RowTaskOfDates(week: string, start: Date, end: Date, i: int)
    requires InRange(start) && InRange(end) && ToOrdinal(end) < MaxOrdinal
    ensures RowTask(WeekRow(week, FormatDate(start), FormatDate(end)), i)
              == Some(Task(week + " (" + FormatDayMonth(start) + ")", ToOrdinal(start), ToOrdinal(end) + 1, WeekKind, i))
  {
    var row := WeekRow(week, FormatDate(start), FormatDate(end));
    ParseFormatDate(start);
    ParseFormatDate(end);
    assert ParseDate(row.startText) == Some(start) && ParseDate(row.endText) == Some(end);
  }

  /** A week's record: "Semaine", `Order` i, seven days from anchor + 7i, in range. */
  lemma WeekTaskShape(anchor: Date, i: nat)
    requires WeeksFit(anchor) && i < WeekCount
    ensures var t := WeekTaskAt(anchor, i);
            && t.order == i && t.kind == WeekKind
            && t.start == ToOrdinal(anchor) + 7 * i && t.finish == t.start + 7
            && 1 <= t.start < t.finish <= MaxOrdinal
  {
  }

  /**
   * A month's record: "Mois", `Order` 12 + j, from day 1 of the month to
   * day 1 of the next month, as long as the month, in range.
   */
  lemma MonthTaskShape(basis: Date, j: nat)
    requires MonthsFit(basis) && j < MonthCount
    ensures var t := MonthTaskAt(basis, j);
            var ym := MonthAt(basis, j);
            && t.order == WeekCount + j && t.kind == MonthKind
            && ValidMonth(ym) && InRange(FirstDay(ym)) && InRange(LastDay(ym))
            && t.start == ToOrdinal(FirstDay(ym)) && t.finish == ToOrdinal(FirstDay(NextMonth(ym)))
            && t.finish - t.start == DaysInMonth(ym.year, ym.month)
            && 1 <= t.start < t.finish <= MaxOrdinal
  {
    var ym := MonthAt(basis, j);
    MonthsFitEach(basis, j);
    MonthPeriodIsWholeMonth(ym);
  }

  /** Consecutive week records touch: each one's exclusive finish is the next one's start. */
  lemma WeekTasksContiguous(anchor: Date, i: nat)
    requires WeeksFit(anchor) && i + 1 < WeekCount
    ensures WeekTaskAt(anchor, i).finish == WeekTaskAt(anchor, i + 1).start
  {
  }

  /** Consecutive month records touch: each one's exclusive finish is the next one's start. */
  lemma MonthTasksContiguous(basis: Date, j: nat)
    requires ValidDate(basis)
    ensures MonthTaskAt(basis, j).finish == MonthTaskAt(basis, j + 1).start
  {
    MonthsContiguous(basis, j);
  }

  /**
   * Between the last week and the first month there is no such link: the
   * first month starts no later than the day after the last week (the
   * basis), and on that very day exactly when the basis is the first of its
   * month, so the two otherwise overlap.
   */
  lemma WeeksMeetMonths(anchor: Date)
    requires WeeksFit(anchor)
    ensures var last, first := WeekTaskAt(anchor, WeekCount - 1), MonthTaskAt(MonthBasis(anchor), 0);
            && first.start <= last.finish == ToOrdinal(MonthBasis(anchor))
            && (first.start == last.finish <==> MonthBasis(anchor).day == 1)
  {
    var basis := MonthBasis(anchor);
    MonthAtSteps(basis, 0);
    FirstMonthHoldsBasis(basis);
    if ToOrdinal(FirstDay(MonthAt(basis, 0))) == ToOrdinal(basis) {
      ToOrdinalInjective(FirstDay(MonthAt(basis, 0)), basis);
    }
  }

  // ---------------------------------------------------------------------------
  // `sort_values("Order")` and the column lists
  // ---------------------------------------------------------------------------

  predicate SortedByOrder(ts: seq<Task>) {
    forall i, j :: 0 <= i < j < |ts| ==> ts[i].order <= ts[j].order
  }

  predicate OrdersIncrease(ts: seq<Task>) {
    forall i, j :: 0 <= i < j < |ts| ==> ts[i].order < ts[j].order
  }

  /** What `sort_values("Order")` promises: the same records, in non-decreasing `Order`. */
  predicate IsSortByOrder(input: seq<Task>, output: seq<Task>) {
    multiset(input) == multiset(output) && SortedByOrder(output)
  }

  /** Inserts `t` into `ts` before the first record of a larger or equal `Order`. */
  function InsertByOrder(t: Task, ts: seq<Task>): (r: seq<Task>)
    ensures multiset(r) == multiset(ts) + multiset{t}
    ensures |r| == |ts| + 1 && (r[0] == t || (ts != [] && r[0] == ts[0]))
  {
    if ts == [] || t.order <= ts[0].order then
      [t] + ts
    else
      assert ts == [ts[0]] + ts[1..];
      [ts[0]] + InsertByOrder(t, ts[1..])
  }

  /** Inserting into a list sorted by `Order` keeps it sorted. */
  lemma {:induction false} InsertKeepsSorted(t: Task, ts: seq<Task>)
    requires SortedByOrder(ts)
    ensures SortedByOrder(InsertByOrder(t, ts))
  {
    if ts != [] && t.order > ts[0].order {
      var rest := InsertByOrder(t, ts[1..]);
      assert SortedByOrder(ts[1..]) by {
        forall i, j | 0 <= i < j < |ts[1..]|
          ensures ts[1..][i].order <= ts[1..][j].order
        {
          assert ts[1..][i] == ts[i + 1] && ts[1..][j] == ts[j + 1];
        }
      }
      InsertKeepsSorted(t, ts[1..]);
      var r := [ts[0]] + rest;
      assert ts[0].order <= rest[0].order;
      forall i, j | 0 <= i < j < |r|
        ensures r[i].order <= r[j].order
      {
        assert r[j] == rest[j - 1];
        if i > 0 {
          assert r[i] == rest[i - 1];
        }
      }
    }
  }

  /**
   * A sort by `Order` (insertion sort).  pandas' `sort_values` uses another
   * algorithm; `SortIsUnique` shows that on the page's records every sort
   * meeting `IsSortByOrder` gives the same result.
   */
  function SortByOrder(ts: seq<Task>): (r: seq<Task>)
    ensures IsSortByOrder(ts, r)
  {
    if ts == [] then []
    else
      assert ts == [ts[0]] + ts[1..];
      var rest := SortByOrder(ts[1..]);
      InsertKeepsSorted(ts[0], rest);
      InsertByOrder(ts[0], rest)
  }

  /** A sort of a list in strictly increasing `Order` starts with the list's first record. */
  lemma SortKeepsHead(input: seq<Task>, output: seq<Task>)
    requires OrdersIncrease(input) && IsSortByOrder(input, output) && input != []
    ensures output != [] && output[0] == input[0]
  {
    assert |output| == |multiset(output)| == |multiset(input)| == |input|;
    assert output[0] in multiset(input);
    var kb :| 0 <= kb < |input| && input[kb] == output[0];
    assert input[0] in multiset(output);
    var ka :| 0 <= ka < |output| && output[ka] == input[0];
    assert output[0].order <= output[ka].order;
    assert input[0].order <= input[kb].order;
    assert kb == 0;
  }

  /** Two lists with the same records and the same first record have the same records after it. */
  lemma SameTail(a: seq<Task>, b: seq<Task>)
    requires a != [] && b != [] && a[0] == b[0] && multiset(a) == multiset(b)
    ensures multiset(a[1..]) == multiset(b[1..])
  {
    assert a == [a[0]] + a[1..];
    assert b == [b[0]] + b[1..];
    assert multiset(a) == multiset{a[0]} + multiset(a[1..]);
    assert multiset(b) == multiset{b[0]} + multiset(b[1..]);
    forall x
      ensures multiset(a[1..])[x] == multiset(b[1..])[x]
    {
      assert multiset(a)[x] == multiset(b)[x];
    }
  }

  /** A list already in strictly increasing `Order` is the only sort of itself. */
  lemma {:induction false} SortIsUnique(input: seq<Task>, output: seq<Task>)
    requires OrdersIncrease(input) && IsSortByOrder(input, output)
    ensures output == input
  {
    if input == [] {
      assert |output| == |multiset(output)| == 0;
    } else {
      SortKeepsHead(input, output);
      SameTail(input, output);
      var tin, tout := input[1..], output[1..];
      assert OrdersIncrease(tin) by {
        forall i, j | 0 <= i < j < |tin|
          ensures tin[i].order < tin[j].order
        {
          assert tin[i] == input[i + 1] && tin[j] == input[j + 1];
        }
      }
      assert SortedByOrder(tout) by {
        forall i, j | 0 <= i < j < |tout|
          ensures tout[i].order <= tout[j].order
        {
          assert tout[i] == output[i + 1] && tout[j] == output[j + 1];
        }
      }
      SortIsUnique(tin, tout);
      assert input == [input[0]] + tin && output == [output[0]] + tout;
    }
  }

  /** The chart's four column lists, each taken from the records sorted by `Order`. */
  datatype Columns = Columns(labels: seq<string>, types: seq<string>, starts: seq<Day>, ends: seq<Day>)

  /**
   * `period_labels`, `period_types`, `period_starts`, `period_ends` (and
   * `ordre_taches`, which is `period_labels` again).  The four lists are as
   * long as the records; when the records are already in increasing
   * `Order`, they follow the records' own order.
   */
  function PeriodColumns(tasks: seq<Task>): (c: Columns)
    ensures |c.labels| == |c.types| == |c.starts| == |c.ends| == |tasks|
    ensures OrdersIncrease(tasks) ==>
              forall i :: 0 <= i < |tasks| ==>
                c.labels[i] == tasks[i].name && c.types[i] == tasks[i].kind
                && c.starts[i] == tasks[i].start && c.ends[i] == tasks[i].finish
  {
    var sorted := SortByOrder(tasks);
    assert |sorted| == |multiset(sorted)| == |tasks|;
    assert OrdersIncrease(tasks) ==> sorted == tasks by {
      if OrdersIncrease(tasks) {
        SortIsUnique(tasks, sorted);
      }
    }
    Columns(seq(|sorted|, i requires 0 <= i < |sorted| => sorted[i].name),
            seq(|sorted|, i requires 0 <= i < |sorted| => sorted[i].kind),
            seq(|sorted|, i requires 0 <= i < |sorted| => sorted[i].start),
            seq(|sorted|, i requires 0 <= i < |sorted| => sorted[i].finish))
  }

  // ---------------------------------------------------------------------------
  // Colours and hover texts
  // ---------------------------------------------------------------------------

  const ColorMap: map<string, string> := map[WeekKind := "#1f77b4", MonthKind := "#ff7f0e"]
  const DefaultColor := "#888888"

  /** `color_map.get(t, "#888888")`. */
  function ColorFor(kind: string): (c: string)
    ensures c == DefaultColor <==> kind !in ColorMap
  {
    if kind in ColorMap then ColorMap[kind] else DefaultColor
  }

  /** `colors`: one colour per column type. */
  function Colors(types: seq<string>): (cs: seq<string>)
    ensures |cs| == |types|
    ensures forall i :: 0 <= i < |types| ==> (cs[i] == DefaultColor <==> types[i] !in ColorMap)
  {
    seq(|types|, i requires 0 <= i < |types| => ColorFor(types[i]))
  }

  /** `f"{lbl}<br>{start:%d/%m/%Y} → {(end - 1 day):%d/%m/%Y}"`: the column's first and last day. */
  function HoverText(caption: string, start: Day, finish: Day): string
    requires 1 <= start <= MaxOrdinal && 2 <= finish <= MaxOrdinal + 1
  {
    caption + "<br>" + FormatDate(DateOf(start)) + " → " + FormatDate(DateOf(finish - 1))
  }

  /**
   * The hover text of every column: a column from `first` to the exclusive
   * finish the day after `last` shows its label, `first` and `last`.
   */
  function HoverTexts(c: Columns): (hs: seq<string>)
    requires |c.labels| == |c.starts| == |c.ends|
    requires forall i :: 0 <= i < |c.labels| ==> 1 <= c.starts[i] <= MaxOrdinal && 2 <= c.ends[i] <= MaxOrdinal + 1
    ensures |hs| == |c.labels|
    ensures forall i :: 0 <= i < |hs| ==> hs[i] == HoverText(c.labels[i], c.starts[i], c.ends[i])
    ensures forall i, first: Date, last: Date ::
              0 <= i < |hs| && InRange(first) && InRange(last)
              && c.starts[i] == ToOrdinal(first) && c.ends[i] == ToOrdinal(last) + 1
              ==> hs[i] == c.labels[i] + "<br>" + FormatDate(first) + " → " + FormatDate(last)
  {
    var hs := seq(|c.labels|, i requires 0 <= i < |c.labels| => HoverText(c.labels[i], c.starts[i], c.ends[i]));
    assert forall i, first: Date, last: Date ::
             0 <= i < |hs| && InRange(first) && InRange(last)
             && c.starts[i] == ToOrdinal(first) && c.ends[i] == ToOrdinal(last) + 1
             ==> hs[i] == c.labels[i] + "<br>" + FormatDate(first) + " → " + FormatDate(last) by {
      forall i, first: Date, last: Date |
        0 <= i < |hs| && InRange(first) && InRange(last)
        && c.starts[i] == ToOrdinal(first) && c.ends[i] == ToOrdinal(last) + 1
        ensures hs[i] == c.labels[i] + "<br>" + FormatDate(first) + " → " + FormatDate(last)
      {
        assert hs[i] == HoverText(c.labels[i], ToOrdinal(first), ToOrdinal(last) + 1);
        HoverShowsDates(c.labels[i], first, last);
      }
    }
    hs
  }

  /**
   * Taking a day off a week's exclusive finish recovers its last day: the
   * hover text shows the same two dates as the week's entry in
   * `donnees_semaines`.
   */
  lemma WeekHoverShowsWeek(anchor: Date, i: nat)
    requires WeeksFit(anchor) && i < WeekCount
    ensures var t := WeekTaskAt(anchor, i);
            && 1 <= t.start <= MaxOrdinal && 2 <= t.finish <= MaxOrdinal + 1
            && FormatDate(DateOf(t.start)) == WeekRowAt(anchor, i).startText
            && FormatDate(DateOf(t.finish - 1)) == WeekRowAt(anchor, i).endText
  {
  }

  /** The hover text of a period with an exclusive finish shows its first and its last day. */
  lemma HoverShowsDates(caption: string, first: Date, last: Date)
    requires InRange(first) && InRange(last)
    ensures 1 <= ToOrdinal(first) <= MaxOrdinal && 2 <= ToOrdinal(last) + 1 <= MaxOrdinal + 1
    ensures HoverText(caption, ToOrdinal(first), ToOrdinal(last) + 1)
              == caption + "<br>" + FormatDate(first) + " → " + FormatDate(last)
  {
    InRangeByOrdinal(first);
    InRangeByOrdinal(last);
    FromToOrdinal(first);
    FromToOrdinal(last);
  }

  // ---------------------------------------------------------------------------
  // Projects and the matrix `z`
  // ---------------------------------------------------------------------------

  /** A project and the indices of its first and last column. */
  datatype Project = Project(name: string, start: int, end: int)

  /** `projects`: the three example projects of the page. */
  const SampleProjects: seq<Project> := [Project("Projet Alpha", 0, 3), Project("Projet Beta", 2, 10),
                                         Project("Projet Gamma", 5, 17)]

  /** The nested loop that fills `z`: one row per project, one 0/1 cell per column. */
  method BuildMatrix(projects: seq<Project>, columns: nat) returns (z: seq<seq<int>>)
    ensures |z| == |projects|
    ensures forall p :: 0 <= p < |z| ==> |z[p]| == columns
    ensures forall p, idx :: 0 <= p < |z| && 0 <= idx < columns ==>
              z[p][idx] == (if projects[p].start <= idx <= projects[p].end then 1 else 0)
  {
    z := [];
    for p := 0 to |projects|
      invariant |z| == p
      invariant forall q :: 0 <= q < p ==> |z[q]| == columns
      invariant forall q, idx :: 0 <= q < p && 0 <= idx < columns ==>
                  z[q][idx] == (if projects[q].start <= idx <= projects[q].end then 1 else 0)
    {
      var row: seq<int> := [];
      for idx := 0 to columns
        invariant |row| == idx
        invariant forall c :: 0 <= c < idx ==> row[c] == (if projects[p].start <= c <= projects[p].end then 1 else 0)
      {
        row := row + [if idx >= projects[p].start && idx <= projects[p].end then 1 else 0];
      }
      z := z + [row];
    }
  }

  /** The number of ones in a row. */
  function CountOnes(row: seq<int>): nat
  {
    if row == [] then 0 else CountOnes(row[..|row| - 1]) + (if row[|row| - 1] == 1 then 1 else 0)
  }

  function Max(a: int, b: int): int { if a >= b then a else b }
  function Min(a: int, b: int): int { if a <= b then a else b }

  /**
   * A row of `z` is one block of ones: its ones are the columns the
   * project's interval shares with 0..columns-1, as many as that overlap is
   * long, and none at all when the project's start is after its end.
   */
  lemma {:induction false} MatrixRowIsBlock(p: Project, row: seq<int>)
    requires forall idx :: 0 <= idx < |row| ==> row[idx] == (if p.start <= idx <= p.end then 1 else 0)
    ensures CountOnes(row) == Max(0, Min(p.end, |row| - 1) - Max(p.start, 0) + 1)
    ensures p.start > p.end ==> CountOnes(row) == 0
    ensures forall i, j, k :: 0 <= i <= j <= k < |row| && row[i] == 1 && row[k] == 1 ==> row[j] == 1
  {
    if row != [] {
      MatrixRowIsBlock(p, row[..|row| - 1]);
    }
  }

  /**
   * With the page's 18 columns, Alpha covers columns 0..3 and Beta 2..10,
   * all of them weeks (Beta does not reach the months), and Gamma covers
   * week 6 to the last month, 13 columns.
   */
  lemma SampleProjectCells(z: seq<seq<int>>)
    requires |z| == |SampleProjects| && forall p :: 0 <= p < |z| ==> |z[p]| == WeekCount + MonthCount
    requires forall p, idx :: 0 <= p < |z| && 0 <= idx < WeekCount + MonthCount ==>
               z[p][idx] == (if SampleProjects[p].start <= idx <= SampleProjects[p].end then 1 else 0)
    ensures CountOnes(z[0]) == 4 && CountOnes(z[1]) == 9 && CountOnes(z[2]) == 13
    ensures forall idx :: WeekCount <= idx < WeekCount + MonthCount ==> z[0][idx] == 0 && z[1][idx] == 0 && z[2][idx] == 1
  {
    MatrixRowIsBlock(SampleProjects[0], z[0]);
    MatrixRowIsBlock(SampleProjects[1], z[1]);
    MatrixRowIsBlock(SampleProjects[2], z[2]);
  }

  // ---------------------------------------------------------------------------
  // The page
  // ---------------------------------------------------------------------------

  /** The two loops that fill `tasks`, fed with the page's own week table: they never raise. */
  method GanttTasks(anchor: Date) returns (rows: seq<WeekRow>, tasks: seq<Task>)
    requires GuiFits(anchor)
    ensures |rows| == WeekCount && forall i :: 0 <= i < |rows| ==> rows[i] == WeekRowAt(anchor, i)
    ensures |tasks| == WeekCount + MonthCount
    ensures forall i :: 0 <= i < WeekCount ==> tasks[i] == WeekTaskAt(anchor, i)
    ensures forall j :: 0 <= j < MonthCount ==> tasks[WeekCount + j] == MonthTaskAt(MonthBasis(anchor), j)
  {
    rows := WeekRows(anchor);
    var basis := MonthBasis(anchor);
    forall i | 0 <= i < |rows|
      ensures RowTask(rows[i], i) == Some(WeekTaskAt(anchor, i))
    {
      WeekRowTask(anchor, i);
    }
    var built := BuildTasks(basis, rows);
    tasks := built.value;
  }

  /** The page's records are in strictly increasing `Order`, typed by position, each a non-empty period in range. */
  lemma GanttTasksInOrder(anchor: Date, tasks: seq<Task>)
    requires GuiFits(anchor)
    requires |tasks| == WeekCount + MonthCount
    requires forall i :: 0 <= i < WeekCount ==> tasks[i] == WeekTaskAt(anchor, i)
    requires forall j :: 0 <= j < MonthCount ==> tasks[WeekCount + j] == MonthTaskAt(MonthBasis(anchor), j)
    ensures OrdersIncrease(tasks)
    ensures forall k :: 0 <= k < |tasks| ==>
              tasks[k].kind == (if k < WeekCount then WeekKind else MonthKind) && 1 <= tasks[k].start < tasks[k].finish <= MaxOrdinal
  {
    forall k | 0 <= k < |tasks|
      ensures tasks[k].order == k
      ensures tasks[k].kind == (if k < WeekCount then WeekKind else MonthKind) && 1 <= tasks[k].start < tasks[k].finish <= MaxOrdinal
    {
      if k < WeekCount {
        WeekTaskShape(anchor, k);
      } else {
        var j := k - WeekCount;
        assert tasks[WeekCount + j] == MonthTaskAt(MonthBasis(anchor), j);
        MonthTaskShape(MonthBasis(anchor), j);
      }
    }
  }

  /**
   * What the chart is given: the four column lists from the records sorted
   * by `Order`, one colour per column by its type, and one hover text per
   * column.  For records already in increasing `Order` the columns follow
   * the records.
   */
  method ChartColumns(tasks: seq<Task>) returns (columns: Columns, colors: seq<string>, hover: seq<string>)
    requires OrdersIncrease(tasks)
    requires forall k :: 0 <= k < |tasks| ==> 1 <= tasks[k].start < tasks[k].finish <= MaxOrdinal
    ensures |columns.labels| == |columns.types| == |columns.starts| == |columns.ends| == |tasks|
    ensures forall k :: 0 <= k < |tasks| ==>
              columns.labels[k] == tasks[k].name && columns.types[k] == tasks[k].kind
              && columns.starts[k] == tasks[k].start && columns.ends[k] == tasks[k].finish
    ensures |colors| == |tasks| && forall k :: 0 <= k < |colors| ==> colors[k] == ColorFor(tasks[k].kind)
    ensures |hover| == |tasks| && forall k :: 0 <= k < |hover| ==> hover[k] == HoverText(tasks[k].name, tasks[k].start, tasks[k].finish)
  {
    columns := PeriodColumns(tasks);
    colors := Colors(columns.types);
    hover := HoverTexts(columns);
  }

  /**
   * The computing part of the page for one anchor date (the page reads it
   * from `datetime.now()`): the week table, the eighteen records in order,
   * the four column lists, the colours, the hover texts and the matrix.
   */
  method GanttPage(anchor: Date)
    returns (rows: seq<WeekRow>, tasks: seq<Task>, columns: Columns, colors: seq<string>, hover: seq<string>,
             z: seq<seq<int>>)
    requires GuiFits(anchor)
    ensures |rows| == WeekCount && forall i :: 0 <= i < |rows| ==> rows[i] == WeekRowAt(anchor, i)
    ensures |tasks| == WeekCount + MonthCount
    ensures forall i :: 0 <= i < WeekCount ==> tasks[i] == WeekTaskAt(anchor, i)
    ensures forall j :: 0 <= j < MonthCount ==> tasks[WeekCount + j] == MonthTaskAt(MonthBasis(anchor), j)
    ensures |columns.labels| == |columns.types| == |columns.starts| == |columns.ends| == |tasks|
    ensures forall k :: 0 <= k < |tasks| ==>
              columns.labels[k] == tasks[k].name && columns.types[k] == tasks[k].kind
              && columns.starts[k] == tasks[k].start && columns.ends[k] == tasks[k].finish
    ensures |colors| == |tasks| && forall k :: 0 <= k < |colors| ==> colors[k] == (if k < WeekCount then "#1f77b4" else "#ff7f0e")
    ensures forall k :: 0 <= k < |tasks| ==> 1 <= tasks[k].start < tasks[k].finish <= MaxOrdinal
    ensures |hover| == |tasks| && forall k :: 0 <= k < |hover| ==> hover[k] == HoverText(tasks[k].name, tasks[k].start, tasks[k].finish)
    ensures |z| == |SampleProjects| && forall p :: 0 <= p < |z| ==> |z[p]| == |tasks|
    ensures forall p, idx :: 0 <= p < |z| && 0 <= idx < |tasks| ==>
              z[p][idx] == (if SampleProjects[p].start <= idx <= SampleProjects[p].end then 1 else 0)
  {
    rows, tasks := GanttTasks(anchor);
    GanttTasksInOrder(anchor, tasks);
    columns, colors, hover := ChartColumns(tasks);
    z := BuildMatrix(SampleProjects, |columns.labels|);
  }
}
