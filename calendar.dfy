/** The month calendar: days are keyed by a `YYYY-MM-DD` string built from
    the month on display, each day lists the tasks whose date is exactly that
    key, and a small panel adds a task on the selected day. */
module Calendar {
  import opened JsRuntime
  import opened Types
  import opened Collections
  import opened Constants
  import opened Store
  import Timeline

  // ---------------------------------------------------------------------
  // Day keys

  /** The key of a day: the year, the 1-based month and the day, the last two
      padded to two digits (the extended calendar-date format of ISO 8601,
      section 4.1.2.2, for four-digit years). */
  function DateKey(year: int, month: nat, day: nat): (k: string)
    requires month < 12
    // the year field is followed by a separator, and a key is six characters
    // longer than its year field (two-digit day)
    ensures |k| >= |IntToString(year)| + 6 && k[|IntToString(year)|] == '-'
    ensures day < 100 ==> |k| == |IntToString(year)| + 6
    ensures year >= 0 ==> '-' !in IntToString(year)
  {
    IntToString(year) + "-" + Pad2(month + 1) + "-" + Pad2(day)
  }

  /** Splitting a key at '-' gives back its three fields. */
  lemma DateKeyFields(year: int, month: nat, day: nat)
    requires year >= 0 && month < 12
    ensures SplitOn(DateKey(year, month, day), '-') == [IntToString(year), Pad2(month + 1), Pad2(day)]
  {
    var y, m, d := IntToString(year), Pad2(month + 1), Pad2(day);
    assert '-' !in m;
    assert '-' !in d;
    assert DateKey(year, month, day) == y + ['-'] + (m + ['-'] + d);
    SplitHead(y, '-', m + ['-'] + d);
    SplitHead(m, '-', d);
    SplitNoSeparator(d, '-');
  }

  /** Splitting a key at '-' and `parseInt` of each field recover the year,
      the 1-based month and the day that were formatted. */
  lemma DateKeyRoundTrip(year: int, month: nat, day: nat)
    requires year >= 0 && month < 12
    ensures SplitOn(DateKey(year, month, day), '-') == [IntToString(year), Pad2(month + 1), Pad2(day)]
    ensures ParseInt(SplitOn(DateKey(year, month, day), '-')[0]) == Some(year)
    ensures ParseInt(SplitOn(DateKey(year, month, day), '-')[1]) == Some(month + 1)
    ensures ParseInt(SplitOn(DateKey(year, month, day), '-')[2]) == Some(day)
  {
    DateKeyFields(year, month, day);
    ParseDigits(IntToString(year));
    NatToStringRoundTrip(year);
    ParseDigits(Pad2(month + 1));
    Pad2RoundTrip(month + 1);
    ParseDigits(Pad2(day));
    Pad2RoundTrip(day);
  }

  /** Different days of non-negative years have different keys. */
  lemma DateKeyInjective(y1: int, m1: nat, d1: nat, y2: int, m2: nat, d2: nat)
    requires y1 >= 0 && y2 >= 0 && m1 < 12 && m2 < 12
    requires DateKey(y1, m1, d1) == DateKey(y2, m2, d2)
    ensures y1 == y2 && m1 == m2 && d1 == d2
  {
    DateKeyRoundTrip(y1, m1, d1);
    DateKeyRoundTrip(y2, m2, d2);
  }

  lemma FourDigitYear(n: nat)
    requires 1000 <= n < 10000
    ensures |NatToString(n)| == 4
  {
    assert NatToString(n) == NatToString(n / 10) + [DigitChar(n % 10)];
    assert NatToString(n / 10) == NatToString(n / 100) + [DigitChar(n / 10 % 10)];
    assert NatToString(n / 100) == NatToString(n / 1000) + [DigitChar(n / 100 % 10)];
  }

  /** A calendar key of a four-digit year is a date the timeline can place. */
  lemma DateKeyIsIsoDate(year: int, month: nat, day: nat)
    requires 1000 <= year < 10000 && month < 12 && 1 <= day <= 31
    ensures Timeline.IsIsoDate(DateKey(year, month, day))
  {
    var k := DateKey(year, month, day);
    var y, m, d := IntToString(year), Pad2(month + 1), Pad2(day);
    FourDigitYear(year);
    assert k[..4] == y && k[5..7] == m && k[8..] == d;
    Pad2RoundTrip(month + 1);
    Pad2RoundTrip(day);
  }

  // ---------------------------------------------------------------------
  // Day buckets

  /** `getTasksForDate`: the tasks whose date is exactly the key, in list order. */
  function TasksOnDate(tasks: seq<Task>, key: string): (r: seq<Task>)
    ensures |r| <= |tasks|
    ensures forall i :: 0 <= i < |r| ==> r[i] in tasks && r[i].date == Some(key)
    ensures forall i :: 0 <= i < |tasks| && tasks[i].date == Some(key) ==> tasks[i] in r
  {
    Filter(tasks, (t: Task) => t.date == Some(key))
  }

  /** Bucketing keeps list order: the bucket of a concatenation is the
      concatenation of the buckets. */
  lemma TasksOnDateAppend(a: seq<Task>, b: seq<Task>, key: string)
    ensures TasksOnDate(a + b, key) == TasksOnDate(a, key) + TasksOnDate(b, key)
  {
    FilterAppend(a, b, (t: Task) => t.date == Some(key));
  }

  /** Two different days of the same month share no task. */
  lemma DayBucketsDisjoint(tasks: seq<Task>, year: int, month: nat, d1: nat, d2: nat)
    requires year >= 0 && month < 12 && d1 != d2
    ensures forall i :: 0 <= i < |TasksOnDate(tasks, DateKey(year, month, d1))| ==>
      TasksOnDate(tasks, DateKey(year, month, d1))[i] !in TasksOnDate(tasks, DateKey(year, month, d2))
  {
    if DateKey(year, month, d1) == DateKey(year, month, d2) {
      DateKeyInjective(year, month, d1, year, month, d2);
    }
  }

  // ---------------------------------------------------------------------
  // Month navigation

  /** A month on display: `currentDate`'s year and 0-based month. */
  datatype Month = Month(year: int, month: int)

  predicate ValidMonth(m: Month) {
    0 <= m.month < 12
  }

  /** The months counted from year 0. */
  function MonthIndex(m: Month): int {
    m.year * 12 + m.month
  }

  /** `new Date(year, month + 1, 1)`. */
  function NextMonth(m: Month): (r: Month)
    requires ValidMonth(m)
    ensures ValidMonth(r) && MonthIndex(r) == MonthIndex(m) + 1
  {
    if m.month == 11 then Month(m.year + 1, 0) else Month(m.year, m.month + 1)
  }

  /** `new Date(year, month - 1, 1)`. */
  function PrevMonth(m: Month): (r: Month)
    requires ValidMonth(m)
    ensures ValidMonth(r) && MonthIndex(r) == MonthIndex(m) - 1
  {
    if m.month == 0 then Month(m.year - 1, 11) else Month(m.year, m.month - 1)
  }

  /** Forward and back are inverse to each other. */
  lemma NavigationInverse(m: Month)
    requires ValidMonth(m)
    ensures PrevMonth(NextMonth(m)) == m && NextMonth(PrevMonth(m)) == m
  {
  }

  // ---------------------------------------------------------------------
  // The selected-day panel

  /** `String(parseInt(s))`'s padded form for a day field; a field that does
      not parse gives `NaN`, which padStart leaves as it is. */
  function DayField(part: Option<nat>): string {
    if part.Some? then Pad2(part.value) else "NaN"
  }

  /** The panel's list as written (line 191): the day is read back from the
      selected key, but the year and month come from the month on display. */
  function PanelTasksAsWritten(tasks: seq<Task>, shown: Month, selected: string): seq<Task>
    requires ValidMonth(shown)
  {
    var parts := SplitOn(selected, '-');
    var day := if |parts| >= 3 then ParseInt(parts[2]) else None;
    TasksOnDate(tasks, IntToString(shown.year) + "-" + Pad2(shown.month + 1) + "-" + DayField(day))
  }

  /** The panel's list as intended: the tasks of the selected day. */
  function PanelTasks(tasks: seq<Task>, selected: string): (r: seq<Task>)
    ensures forall i :: 0 <= i < |r| ==> r[i].date == Some(selected)
    ensures forall i :: 0 <= i < |tasks| && tasks[i].date == Some(selected) ==> tasks[i] in r
  {
    TasksOnDate(tasks, selected)
  }

  /** As written, the panel of a selected day lists the tasks of the same
      day number in the month on display, whatever month the day was
      selected in. */
  lemma PanelUsesShownMonth(tasks: seq<Task>, shown: Month, year: int, month: nat, day: nat)
    requires ValidMonth(shown) && year >= 0 && month < 12
    ensures PanelTasksAsWritten(tasks, shown, DateKey(year, month, day)) ==
            TasksOnDate(tasks, DateKey(shown.year, shown.month, day))
  {
    DateKeyFields(year, month, day);
    ParseDigits(Pad2(day));
    Pad2RoundTrip(day);
    var parts := SplitOn(DateKey(year, month, day), '-');
    assert |parts| >= 3 && ParseInt(parts[2]) == Some(day);
    assert DayField(ParseInt(parts[2])) == Pad2(day);
    assert IntToString(shown.year) + "-" + Pad2(shown.month + 1) + "-" + DayField(ParseInt(parts[2])) ==
           DateKey(shown.year, shown.month, day);
  }

  /** While the month on display is the selected day's month, the two agree. */
  lemma PanelAgreesInSelectedMonth(tasks: seq<Task>, shown: Month, day: nat)
    requires ValidMonth(shown) && shown.year >= 0
    ensures PanelTasksAsWritten(tasks, shown, DateKey(shown.year, shown.month, day)) ==
            PanelTasks(tasks, DateKey(shown.year, shown.month, day))
  {
    PanelUsesShownMonth(tasks, shown, shown.year, shown.month, day);
  }

  /** After selecting a day and moving on one month, the panel lists a task
      of the same day next month and drops the task of the selected day. */
  lemma PanelAfterNavigation(march: Task, april: Task, day: nat)
    requires march.date == Some(DateKey(2026, 2, day)) && april.date == Some(DateKey(2026, 3, day))
    ensures PanelTasks([march, april], DateKey(2026, 2, day)) == [march]
    ensures PanelTasksAsWritten([march, april], NextMonth(Month(2026, 2)), DateKey(2026, 2, day)) == [april]
  {
    PanelUsesShownMonth([march, april], Month(2026, 3), 2026, 2, day);
    if DateKey(2026, 2, day) == DateKey(2026, 3, day) {
      DateKeyInjective(2026, 2, day, 2026, 3, day);
    }
    assert [march, april] == [march] + [april];
    TasksOnDateAppend([march], [april], DateKey(2026, 2, day));
    TasksOnDateAppend([march], [april], DateKey(2026, 3, day));
    assert [march][1..] == [] && [april][1..] == [];
  }

  /** Seed tasks 7 (15 March 2026) and 12 (15 April 2026) are such a pair. */
  lemma SeedPairForPanel()
    ensures INITIAL_TASKS[6].date == Some(DateKey(2026, 2, 15))
    ensures INITIAL_TASKS[11].date == Some(DateKey(2026, 3, 15))
  {
    SeedKeys();
    assert INITIAL_TASKS[6].date == Some("2026-03-15");
    assert INITIAL_TASKS[11].date == Some("2026-04-15");
  }

  /** The keys of 15 March and 15 April 2026. */
  lemma SeedKeys()
    ensures DateKey(2026, 2, 15) == "2026-03-15"
    ensures DateKey(2026, 3, 15) == "2026-04-15"
  {
    assert NatToString(2026) == "2026" by {
      assert NatToString(20) == "20";
      assert NatToString(202) == "202";
    }
    assert NatToString(15) == NatToString(1) + [DigitChar(5)];
  }

  // ---------------------------------------------------------------------
  // The view

  /** The task the panel adds. */
  function NewCalendarTask(tasks: seq<Task>, title: string, date: string): (t: Task)
    ensures t.id == NextId(tasks, TaskId) && forall i :: 0 <= i < |tasks| ==> tasks[i].id < t.id
    ensures t.title == title && t.date == Some(date) && t.category == "General"
    ensures t.status == Pending && t.priority == Medium
    ensures t.description.None? && t.assigneeId.None? && t.subtasks.None?
  {
    Task(NextId(tasks, TaskId), "General", title, Pending, Medium, Some(date), None, None, None)
  }

  /** Adding keeps task ids unique, and the new task is in its day's bucket. */
  lemma AddLandsOnItsDay(tasks: seq<Task>, title: string, date: string)
    requires UniqueKeys(tasks, TaskId)
    ensures UniqueKeys(tasks + [NewCalendarTask(tasks, title, date)], TaskId)
    ensures TasksOnDate(tasks + [NewCalendarTask(tasks, title, date)], date) ==
            TasksOnDate(tasks, date) + [NewCalendarTask(tasks, title, date)]
  {
    var t := NewCalendarTask(tasks, title, date);
    AppendNextKeepsUnique(tasks, t, TaskId);
    TasksOnDateAppend(tasks, [t], date);
    assert [t][1..] == [];
  }

  class CalendarView {
    const app: AppState
    var shown: Month
    var selectedDate: Option<string>
    var isAddingTask: bool
    var newTaskTitle: string

    /** Opens on `today`'s month. */
    constructor (app: AppState, today: Month)
      requires ValidMonth(today)
      ensures this.app == app && shown == today
      ensures selectedDate.None? && !isAddingTask && newTaskTitle == ""
    {
      this.app := app;
      shown := today;
      selectedDate := None;
      isAddingTask := false;
      newTaskTitle := "";
    }

    method GoPrevMonth()
      requires ValidMonth(shown)
      modifies this`shown
      ensures shown == PrevMonth(old(shown))
    {
      shown := PrevMonth(shown);
    }

    method GoNextMonth()
      requires ValidMonth(shown)
      modifies this`shown
      ensures shown == NextMonth(old(shown))
    {
      shown := NextMonth(shown);
    }

    /** `handleDateClick(day)`: selects the key of that day of the shown month. */
    method HandleDateClick(day: nat)
      requires ValidMonth(shown)
      modifies this`selectedDate
      ensures selectedDate == Some(DateKey(shown.year, shown.month, day))
    {
      selectedDate := Some(DateKey(shown.year, shown.month, day));
    }

    /** The + button of a day cell: selects the day and opens the add form. */
    method AddOnDay(day: nat)
      requires ValidMonth(shown)
      modifies this`selectedDate, this`isAddingTask
      ensures selectedDate == Some(DateKey(shown.year, shown.month, day)) && isAddingTask
    {
      HandleDateClick(day);
      isAddingTask := true;
    }

    /** The panel's "+ Agregar Tarea" button. */
    method OpenAdd()
      modifies this`isAddingTask
      ensures isAddingTask
    {
      isAddingTask := true;
    }

    /** The panel's close button. */
    method ClosePanel()
      modifies this`selectedDate, this`isAddingTask
      ensures selectedDate.None? && !isAddingTask
    {
      selectedDate := None;
      isAddingTask := false;
    }

    method SetTitle(v: string)
      modifies this`newTaskTitle
      ensures newTaskTitle == v
    {
      newTaskTitle := v;
    }

    /** `handleAddTask`. */
    method HandleAddTask()
      modifies app`tasks, this`newTaskTitle, this`isAddingTask
      ensures !(old(newTaskTitle) != "" && Filled(selectedDate)) ==>
        app.tasks == old(app.tasks) && newTaskTitle == old(newTaskTitle) && isAddingTask == old(isAddingTask)
      ensures old(newTaskTitle) != "" && Filled(selectedDate) ==>
        app.tasks == old(app.tasks) + [NewCalendarTask(old(app.tasks), old(newTaskTitle), selectedDate.value)] &&
        newTaskTitle == "" && !isAddingTask
    {
      if newTaskTitle != "" && Filled(selectedDate) {
        app.tasks := app.tasks + [NewCalendarTask(app.tasks, newTaskTitle, selectedDate.value)];
        newTaskTitle := "";
        isAddingTask := false;
      }
    }
  }
}
