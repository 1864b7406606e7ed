/** The timeline view: tasks are grouped into phases named after the month
    of their date (February and March 2026 share one phase), the phases are
    listed in a fixed order with unknown phases after them, and the view has
    a form that adds a task or edits one in place. */
module Timeline {
  import opened JsRuntime
  import opened Types
  import opened Collections
  import opened Constants
  import opened Store

  // ---------------------------------------------------------------------
  // Phase names

  /** A calendar month: the year and the 0-based month. */
  datatype YearMonth = YearMonth(year: nat, month: nat)

  /** A `YYYY-MM-DD` date with month 01-12 and day 01-31. */
  predicate IsIsoDate(s: string) {
    |s| == 10 && s[4] == '-' && s[7] == '-' &&
    AllDigits(s[..4]) && AllDigits(s[5..7]) && AllDigits(s[8..]) &&
    1 <= DigitsValue(s[5..7]) <= 12 && 1 <= DigitsValue(s[8..]) <= 31
  }

  /** `getFullYear()` and `getMonth()` of `new Date(s)`, read from the digits;
      `None` stands for an invalid date. */
  function ParseYearMonth(s: string): (r: Option<YearMonth>)
    ensures r.Some? <==> IsIsoDate(s)
    ensures r.Some? ==> r.value.month < 12
  {
    if IsIsoDate(s) then Some(YearMonth(DigitsValue(s[..4]), DigitsValue(s[5..7]) - 1)) else None
  }

  const MonthNames: seq<string> := [
    "Enero", "Febrero", "Marzo", "Abril", "Mayo", "Junio", "Julio",
    "Agosto", "Septiembre", "Octubre", "Noviembre", "Diciembre"]

  const NoDate := "Sin Fecha"
  const FebMarch := "Febrero - Marzo"
  /** `${monthNames[NaN]} ${NaN}` for a date string that does not parse. */
  const InvalidDatePhase := "undefined NaN"

  /** The phase of a month other than February and March 2026. */
  function MonthPhase(ym: YearMonth): (r: string)
    requires ym.month < 12
    ensures |r| >= 6 && r[0] == MonthNames[ym.month][0]
  {
    MonthNames[ym.month] + " " + NatToString(ym.year)
  }

  /** `getPhaseName(dateStr)`. */
  function GetPhaseName(s: string): (r: string)
    // only the empty string has no phase
    ensures r == NoDate <==> s == ""
    // the listed 'Post-Evento' phase is never produced from a date
    ensures r != "Post-Evento"
  {
    if s == "" then NoDate
    else match ParseYearMonth(s)
      case None => InvalidDatePhase
      case Some(ym) =>
        if ym.year == 2026 && (ym.month == 1 || ym.month == 2) then FebMarch
        else
          var m := MonthPhase(ym);
          assert m != NoDate && m != "Post-Evento" by {
            assert ym.month == 8 ==> |m| >= 12;
          }
          m
  }

  /** A digit string without a leading zero reads back as itself. */
  lemma {:induction false} DigitsRoundTrip(d: string)
    requires AllDigits(d) && |d| >= 1 && (|d| > 1 ==> d[0] != '0')
    ensures NatToString(DigitsValue(d)) == d
    decreases |d|
  {
    if |d| > 1 {
      var init := d[..|d| - 1];
      DigitsRoundTrip(init);
      LeadingNonZero(init);
      var n := DigitsValue(d);
      assert n / 10 == DigitsValue(init) && n % 10 == DigitValue(d[|d| - 1]);
      assert d == init + [d[|d| - 1]];
    }
  }

  lemma {:induction false} LeadingNonZero(d: string)
    requires AllDigits(d) && |d| >= 1 && d[0] != '0'
    ensures DigitsValue(d) >= 1
    decreases |d|
  {
    if |d| > 1 {
      LeadingNonZero(d[..|d| - 1]);
    }
  }

  /** Digit strings of the same length with the same value are equal. */
  lemma {:induction false} DigitsValueInjective(a: string, b: string)
    requires AllDigits(a) && AllDigits(b) && |a| == |b| && DigitsValue(a) == DigitsValue(b)
    ensures a == b
    decreases |a|
  {
    if a != [] {
      var ia, ib := a[..|a| - 1], b[..|b| - 1];
      assert DigitValue(a[|a| - 1]) == DigitValue(b[|b| - 1]);
      DigitsValueInjective(ia, ib);
      assert a == ia + [a[|a| - 1]] && b == ib + [b[|b| - 1]];
    }
  }

  lemma DateLiterals()
    ensures DigitsValue("2026") == 2026 && DigitsValue("02") == 2 && DigitsValue("03") == 3
  {
    assert "2026"[..3] == "202" && "202"[..2] == "20" && "20"[..1] == "2" && "2"[..0] == "";
    assert "02"[..1] == "0" && "03"[..1] == "0" && "0"[..0] == "";
  }

  /** Lines 23-28 in terms of the date string: a date in February or March
      2026 is in the shared phase; any other date with a year written
      without a leading zero is in "<month name> <year as written>". */
  lemma PhaseOfDate(s: string)
    requires IsIsoDate(s) && s[0] != '0'
    ensures s[..4] == "2026" && (s[5..7] == "02" || s[5..7] == "03") ==> GetPhaseName(s) == FebMarch
    ensures !(s[..4] == "2026" && (s[5..7] == "02" || s[5..7] == "03")) ==>
              GetPhaseName(s) == MonthNames[DigitsValue(s[5..7]) - 1] + " " + s[..4]
  {
    var y, m := s[..4], s[5..7];
    DateLiterals();
    DigitsRoundTrip(y);
    if DigitsValue(y) == 2026 {
      DigitsValueInjective(y, "2026");
    }
    if DigitsValue(m) == 2 {
      DigitsValueInjective(m, "02");
    }
    if DigitsValue(m) == 3 {
      DigitsValueInjective(m, "03");
    }
  }

  /** The phase of a task: `task.date ? getPhaseName(task.date) : 'Sin Fecha'`. */
  function PhaseOf(t: Task): (p: string)
    ensures p == GetPhaseName(t.date.GetOr(""))
  {
    if Filled(t.date) then GetPhaseName(t.date.value) else NoDate
  }

  /** An undated task, and only an undated one, is in 'Sin Fecha'. */
  lemma NoDatePhase(t: Task)
    ensures PhaseOf(t) == NoDate <==> !Filled(t.date)
  {
  }

  // ---------------------------------------------------------------------
  // Grouping (lines 32-39)

  /** The tasks of one phase, in list order. */
  function InPhase(tasks: seq<Task>, phase: string): (r: seq<Task>)
    ensures |r| <= |tasks|
  {
    GroupOf(tasks, PhaseOf, phase)
  }

  /** The phases in order of first appearance: `Object.keys` of the groups. */
  function PhaseKeys(tasks: seq<Task>): seq<string> {
    KeysOf(tasks, PhaseOf)
  }

  /** The grouping reduce: a dictionary from phase to tasks and its keys in
      insertion order. */
  method GroupTasks(tasks: seq<Task>) returns (groups: map<string, seq<Task>>, keys: seq<string>)
    ensures keys == PhaseKeys(tasks)
    ensures forall k :: k in groups <==> k in keys
    ensures forall k :: k in groups ==> groups[k] == InPhase(tasks, k)
  {
    groups, keys := GroupBy(tasks, PhaseOf);
  }

  /** Grouping is a partition: the phases are distinct, every task is in the
      group of its own phase and in no other, and the groups together hold
      exactly as many tasks as the list. */
  lemma GroupingIsPartition(tasks: seq<Task>)
    ensures Distinct(PhaseKeys(tasks))
    ensures forall i :: 0 <= i < |tasks| ==>
      PhaseOf(tasks[i]) in PhaseKeys(tasks) && tasks[i] in InPhase(tasks, PhaseOf(tasks[i]))
    ensures forall i, k :: 0 <= i < |tasks| && k != PhaseOf(tasks[i]) ==> tasks[i] !in InPhase(tasks, k)
    ensures GroupedCount(PhaseKeys(tasks), tasks, PhaseOf) == |tasks|
  {
    KeysOfMembers(tasks, PhaseOf);
    forall i | 0 <= i < |tasks|
      ensures tasks[i] in InPhase(tasks, PhaseOf(tasks[i]))
    {
      GroupOfMembers(tasks, PhaseOf, PhaseOf(tasks[i]));
    }
    forall i, k | 0 <= i < |tasks| && k != PhaseOf(tasks[i])
      ensures tasks[i] !in InPhase(tasks, k)
    {
      GroupOfMembers(tasks, PhaseOf, k);
    }
    GroupsCoverAll(tasks, PhaseOf);
  }

  // ---------------------------------------------------------------------
  // Phase order (lines 42-50)

  const PhaseOrder: seq<string> := [FebMarch, "Abril 2026", "Mayo 2026", "Junio 2026", "Post-Evento"]

  /** `s.indexOf(x)`. */
  function IndexOf(s: seq<string>, x: string): (i: int)
    ensures -1 <= i < |s|
    ensures i == -1 <==> x !in s
    ensures i >= 0 ==> s[i] == x && forall j :: 0 <= j < i ==> s[j] != x
    decreases |s|
  {
    if s == [] then -1
    else if s[0] == x then 0
    else
      var i := IndexOf(s[1..], x);
      if i == -1 then -1 else i + 1
  }

  /** The sort comparator. */
  function ComparePhases(a: string, b: string): int {
    var ia, ib := IndexOf(PhaseOrder, a), IndexOf(PhaseOrder, b);
    if ia != -1 && ib != -1 then ia - ib
    else if ia != -1 then -1
    else if ib != -1 then 1
    else StrCompare(a, b)
  }

  /** Phase a is shown before phase b. */
  predicate PhaseBefore(a: string, b: string) {
    ComparePhases(a, b) < 0
  }

  /** Listed phases come first, in list order; the others follow in string order. */
  lemma PhaseBeforeCases(a: string, b: string)
    ensures a in PhaseOrder && b in PhaseOrder ==>
              (PhaseBefore(a, b) <==> IndexOf(PhaseOrder, a) < IndexOf(PhaseOrder, b))
    ensures a in PhaseOrder && b !in PhaseOrder ==> PhaseBefore(a, b)
    ensures a !in PhaseOrder && b !in PhaseOrder ==> (PhaseBefore(a, b) <==> StrLess(a, b))
  {
  }

  /** The comparator is a strict total order on phase names. */
  lemma PhaseBeforeStrictTotal(a: string, b: string, c: string)
    ensures !PhaseBefore(a, a)
    ensures a != b ==> PhaseBefore(a, b) || PhaseBefore(b, a)
    ensures PhaseBefore(a, b) ==> !PhaseBefore(b, a)
    ensures PhaseBefore(a, b) && PhaseBefore(b, c) ==> PhaseBefore(a, c)
  {
    StrLessIrreflexive(a);
    if a != b && a !in PhaseOrder && b !in PhaseOrder {
      StrLessTotal(a, b);
    }
    if a in PhaseOrder && b in PhaseOrder && a != b {
      assert IndexOf(PhaseOrder, a) != IndexOf(PhaseOrder, b);
    }
    if PhaseBefore(a, b) && a !in PhaseOrder && b !in PhaseOrder {
      StrLessAsymmetric(a, b);
    }
    if PhaseBefore(a, b) && PhaseBefore(b, c) && a !in PhaseOrder && b !in PhaseOrder && c !in PhaseOrder {
      StrLessTransitive(a, b, c);
    }
  }

  lemma PhaseBeforeIsStrictTotal()
    ensures StrictTotalOrder(PhaseBefore)
  {
    forall a, b, c {
      PhaseBeforeStrictTotal(a, b, c);
    }
  }

  /** `Object.keys(groupedTasks).sort(comparator)`. */
  function SortPhases(s: seq<string>): seq<string> {
    SortBy(s, PhaseBefore)
  }

  /** The listed phases come out as every phase once, in comparator order. */
  lemma SortedPhaseKeys(tasks: seq<Task>)
    ensures SortedBy(SortPhases(PhaseKeys(tasks)), PhaseBefore)
    ensures multiset(SortPhases(PhaseKeys(tasks))) == multiset(PhaseKeys(tasks))
  {
    KeysOfMembers(tasks, PhaseOf);
    PhaseBeforeIsStrictTotal();
    SortBySpec(PhaseKeys(tasks), PhaseBefore);
  }

  /** A month phase sorts before 'Sin Fecha' in string order: every month
      name starts with a letter up to 'S', and 'Septiembre' differs at 'e'. */
  lemma MonthPhaseBeforeNoDate(ym: YearMonth)
    requires ym.month < 12
    ensures StrLess(MonthPhase(ym), NoDate)
  {
    var p := MonthPhase(ym);
    var m := ym.month;
    assert p[..|MonthNames[m]|] == MonthNames[m];
    if m == 8 {
      assert p[0] == 'S' && p[1] == 'e';
      assert p[1..][0] == 'e' && NoDate[1..][0] == 'i';
    } else {
      assert p[0] < 'S';
    }
  }

  /** Every phase a valid date produces is shown before 'Sin Fecha'; only the
      phase of an unparsable date string is shown after it. So 'Sin Fecha' is
      not always last. */
  lemma NoDateIsLastUnlessInvalid(s: string)
    requires s != ""
    ensures IsIsoDate(s) ==> PhaseBefore(GetPhaseName(s), NoDate)
    ensures !IsIsoDate(s) ==> GetPhaseName(s) == InvalidDatePhase && PhaseBefore(NoDate, GetPhaseName(s))
  {
    assert NoDate !in PhaseOrder;
    if IsIsoDate(s) {
      var ym := ParseYearMonth(s).value;
      if GetPhaseName(s) != FebMarch {
        MonthPhaseBeforeNoDate(ym);
      }
    } else {
      assert InvalidDatePhase !in PhaseOrder;
      assert StrLess(NoDate, InvalidDatePhase);
    }
  }

  // ---------------------------------------------------------------------
  // The view's form

  class TimelineView {
    const app: AppState
    var isAdding: bool
    var editingId: Option<int>
    var tempTask: TaskDraft

    constructor (app: AppState)
      ensures this.app == app && !isAdding && editingId.None? && tempTask == EmptyTaskDraft
    {
      this.app := app;
      isAdding := false;
      editingId := None;
      tempTask := EmptyTaskDraft;
    }

    /** The add button: opens the form with category 'General'. It leaves
        `editingId` as it was. */
    method OpenAdd()
      modifies this
      ensures isAdding && tempTask == EmptyTaskDraft.(category := Some("General"))
      ensures editingId == old(editingId)
    {
      isAdding := true;
      tempTask := EmptyTaskDraft.(category := Some("General"));
    }

    method SetDraftTitle(v: string)
      modifies this`tempTask
      ensures tempTask == old(tempTask).(title := Some(v))
    {
      tempTask := tempTask.(title := Some(v));
    }

    method SetDraftDate(v: string)
      modifies this`tempTask
      ensures tempTask == old(tempTask).(date := Some(v))
    {
      tempTask := tempTask.(date := Some(v));
    }

    method SetDraftCategory(v: string)
      modifies this`tempTask
      ensures tempTask == old(tempTask).(category := Some(v))
    {
      tempTask := tempTask.(category := Some(v));
    }

    /** `handleSaveTask`. */
    method HandleSaveTask()
      modifies this, app`tasks
      // nothing happens without a title and a date
      ensures !(Filled(old(tempTask).title) && Filled(old(tempTask).date)) ==>
        app.tasks == old(app.tasks) && tempTask == old(tempTask) &&
        editingId == old(editingId) && isAdding == old(isAdding)
      // editing: the draft is merged over the task with that id; the form stays open
      ensures Filled(old(tempTask).title) && Filled(old(tempTask).date) && TruthyId(old(editingId)) ==>
        app.tasks == EditById(old(app.tasks), old(editingId).value, old(tempTask)) &&
        editingId.None? && isAdding == old(isAdding) && tempTask == EmptyTaskDraft
      // adding: one task is appended with a fresh id, and the form closes
      ensures Filled(old(tempTask).title) && Filled(old(tempTask).date) && !TruthyId(old(editingId)) ==>
        app.tasks == old(app.tasks) + [NewTimelineTask(old(app.tasks), old(tempTask))] &&
        editingId == old(editingId) && !isAdding && tempTask == EmptyTaskDraft
    {
      if Filled(tempTask.title) && Filled(tempTask.date) {
        if TruthyId(editingId) {
          app.tasks := EditById(app.tasks, editingId.value, tempTask);
          editingId := None;
        } else {
          app.tasks := app.tasks + [NewTimelineTask(app.tasks, tempTask)];
          isAdding := false;
        }
        tempTask := EmptyTaskDraft;
      }
    }

    /** Clicking a task: opens the form on a copy of it. */
    method StartEdit(t: Task)
      modifies this
      ensures editingId == Some(t.id) && tempTask == TaskDraftOf(t) && isAdding
    {
      editingId := Some(t.id);
      tempTask := TaskDraftOf(t);
      isAdding := true;
    }

    method CancelEdit()
      modifies this
      ensures !isAdding && editingId.None? && tempTask == EmptyTaskDraft
    {
      isAdding := false;
      editingId := None;
      tempTask := EmptyTaskDraft;
    }

    /** The circle button of a task card (line 180). */
    method ToggleDone(id: int)
      modifies app`tasks
      ensures app.tasks == ToggleById(old(app.tasks), id)
    {
      app.tasks := ToggleById(app.tasks, id);
    }
  }

  /** The task the form adds. */
  function NewTimelineTask(tasks: seq<Task>, d: TaskDraft): (t: Task)
    requires Filled(d.title) && Filled(d.date)
    ensures t.id == NextId(tasks, TaskId) && forall i :: 0 <= i < |tasks| ==> tasks[i].id < t.id
    ensures t.title == d.title.value && t.date == d.date
    ensures t.category == (if Filled(d.category) then d.category.value else "General")
    ensures t.status == Pending && t.priority == Medium
    ensures t.description.None? && t.assigneeId.None? && t.subtasks.None?
  {
    Task(NextId(tasks, TaskId), OrElse(d.category, "General"), d.title.value, Pending, Medium,
         d.date, None, None, None)
  }

  /** Adding keeps task ids unique. */
  lemma AddKeepsIdsUnique(tasks: seq<Task>, d: TaskDraft)
    requires Filled(d.title) && Filled(d.date) && UniqueKeys(tasks, TaskId)
    ensures UniqueKeys(tasks + [NewTimelineTask(tasks, d)], TaskId)
  {
    AppendNextKeepsUnique(tasks, NewTimelineTask(tasks, d), TaskId);
  }

  // ---------------------------------------------------------------------
  // The seed tasks

  /** The 'Post-Evento' seed task is placed by its date, in June, not in the
      'Post-Evento' phase its category names. */
  lemma PostEventoSeedPhase()
    ensures INITIAL_TASKS[20].category == "Post-Evento"
    ensures PhaseOf(INITIAL_TASKS[20]) == "Junio 2026"
  {
    JunePhase();
  }

  /** The date of the 'Post-Evento' seed task is in June 2026. */
  lemma JunePhase()
    ensures GetPhaseName("2026-06-05") == "Junio 2026"
  {
    var s := "2026-06-05";
    assert s[..4] == "2026" && s[5..7] == "06" && s[8..] == "05";
    TwoDigits(s[5..7]);
    TwoDigits(s[8..]);
    assert IsIsoDate(s);
    PhaseOfDate(s);
  }

  lemma TwoDigits(d: string)
    requires |d| == 2 && AllDigits(d)
    ensures DigitsValue(d) == DigitValue(d[0]) * 10 + DigitValue(d[1])
  {
    var hd := d[..1];
    assert hd[..0] == [] && hd[0] == d[0];
    assert DigitsValue(hd) == DigitValue(d[0]);
    assert DigitsValue(d) == DigitsValue(hd) * 10 + DigitValue(d[1]);
  }
}
