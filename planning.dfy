/** The planning table: every task in a row that can be filtered by
    category, status and a search term, edited in place, re-stated, deleted,
    or added through a form. */
module Planning {
  import opened JsRuntime
  import opened Types
  import opened Collections
  import opened Store

  // ---------------------------------------------------------------------
  // The filter (lines 73-78)

  /** The three filter conditions of a row. */
  predicate Matches(t: Task, category: string, status: string, term: string) {
    (category == "all" || t.category == category) &&
    (status == "all" || StatusName(t.status) == status) &&
    Includes(ToLower(t.title), ToLower(term))
  }

  /** A row matches exactly when its category and status pass their filters
      and the lower-cased search term occurs in the lower-cased title. */
  lemma MatchesIff(t: Task, category: string, status: string, term: string)
    ensures Matches(t, category, status, term) <==>
      (category == "all" || t.category == category) &&
      (status == "all" || StatusName(t.status) == status) &&
      exists i :: OccursAt(ToLower(t.title), ToLower(term), i)
  {
    IncludesIff(ToLower(t.title), ToLower(term));
  }

  /** `filteredTasks`. */
  function FilteredTasks(tasks: seq<Task>, category: string, status: string, term: string): (r: seq<Task>)
    ensures |r| <= |tasks|
    ensures forall i :: 0 <= i < |r| ==> r[i] in tasks && Matches(r[i], category, status, term)
    ensures forall i :: 0 <= i < |tasks| && Matches(tasks[i], category, status, term) ==> tasks[i] in r
  {
    Filter(tasks, (t: Task) => Matches(t, category, status, term))
  }

  /** The filter keeps list order: filtering a concatenation is concatenating
      the filtered parts. */
  lemma FilteredTasksAppend(a: seq<Task>, b: seq<Task>, category: string, status: string, term: string)
    ensures FilteredTasks(a + b, category, status, term) ==
            FilteredTasks(a, category, status, term) + FilteredTasks(b, category, status, term)
  {
    FilterAppend(a, b, (t: Task) => Matches(t, category, status, term));
  }

  /** With both selects on 'all' and an empty search, every task is listed. */
  lemma NoFilterListsAll(tasks: seq<Task>)
    ensures FilteredTasks(tasks, "all", "all", "") == tasks
  {
    forall i | 0 <= i < |tasks|
      ensures Matches(tasks[i], "all", "all", "")
    {
      IncludesEmpty(ToLower(tasks[i].title));
    }
    FilterAll(tasks, (t: Task) => Matches(t, "all", "all", ""));
  }

  // ---------------------------------------------------------------------
  // Row and form operations

  /** `tasks.map(t => t.id === id ? { ...t, status } : t)`. */
  function SetStatusById(tasks: seq<Task>, id: int, status: TaskStatus): seq<Task> {
    UpdateKey(tasks, TaskId, id, (t: Task) => t.(status := status))
  }

  /** A status change sets the status of the tasks with that id and changes
      no other field and no other task. */
  lemma SetStatusByIdEffect(tasks: seq<Task>, id: int, status: TaskStatus)
    ensures |SetStatusById(tasks, id, status)| == |tasks|
    ensures forall i :: 0 <= i < |tasks| ==>
      SetStatusById(tasks, id, status)[i] == if tasks[i].id == id then tasks[i].(status := status) else tasks[i]
    ensures UniqueKeys(tasks, TaskId) ==> UniqueKeys(SetStatusById(tasks, id, status), TaskId)
  {
  }

  /** The draft the "Nueva" button opens. */
  const AddDraft := TaskDraft(Some("General"), Some(""), Some(Pending), Some(Medium), None)

  /** The task `saveAdd` appends. The date of the draft is not copied. */
  function NewPlanningTask(tasks: seq<Task>, d: TaskDraft): (t: Task)
    requires Filled(d.title)
    ensures t.id == NextId(tasks, TaskId) && forall i :: 0 <= i < |tasks| ==> tasks[i].id < t.id
    ensures t.title == d.title.value
    ensures t.category == (if Filled(d.category) then d.category.value else "General")
    ensures t.status == (if d.status.Some? then d.status.value else Pending)
    ensures t.priority == (if d.priority.Some? then d.priority.value else Medium)
    ensures t.date.None? && t.description.None? && t.assigneeId.None? && t.subtasks.None?
  {
    Task(NextId(tasks, TaskId), OrElse(d.category, "General"), d.title.value,
         d.status.GetOr(Pending), d.priority.GetOr(Medium), None, None, None, None)
  }

  /** Adding keeps ids unique, and a date typed into the add form is lost. */
  lemma SaveAddDropsDate(tasks: seq<Task>, d: TaskDraft)
    requires Filled(d.title) && UniqueKeys(tasks, TaskId)
    ensures UniqueKeys(tasks + [NewPlanningTask(tasks, d)], TaskId)
    ensures d.date.Some? ==> NewPlanningTask(tasks, d).date != d.date
  {
    AppendNextKeepsUnique(tasks, NewPlanningTask(tasks, d), TaskId);
  }

  class PlanningView {
    const app: AppState
    var isAdding: bool
    var editingId: Option<int>
    var tempTask: TaskDraft
    var filterCategory: string
    var filterStatus: string
    var searchTerm: string

    constructor (app: AppState)
      ensures this.app == app && !isAdding && editingId.None? && tempTask == EmptyTaskDraft
      ensures filterCategory == "all" && filterStatus == "all" && searchTerm == ""
    {
      this.app := app;
      isAdding := false;
      editingId := None;
      tempTask := EmptyTaskDraft;
      filterCategory := "all";
      filterStatus := "all";
      searchTerm := "";
    }

    /** The rows on display: the stored tasks matching the current filters,
        no more and no fewer. */
    function Visible(): (r: seq<Task>)
      reads this, app
      ensures forall i :: 0 <= i < |r| ==> r[i] in app.tasks && Matches(r[i], filterCategory, filterStatus, searchTerm)
      ensures forall i :: 0 <= i < |app.tasks| && Matches(app.tasks[i], filterCategory, filterStatus, searchTerm) ==>
        app.tasks[i] in r
    {
      FilteredTasks(app.tasks, filterCategory, filterStatus, searchTerm)
    }

    method SetSearchTerm(v: string)
      modifies this`searchTerm
      ensures searchTerm == v
    {
      searchTerm := v;
    }

    method SetFilterCategory(v: string)
      modifies this`filterCategory
      ensures filterCategory == v
    {
      filterCategory := v;
    }

    method SetFilterStatus(v: string)
      modifies this`filterStatus
      ensures filterStatus == v
    {
      filterStatus := v;
    }

    /** `handleStatusChange(id, status)`. */
    method HandleStatusChange(id: int, status: TaskStatus)
      modifies app`tasks
      ensures app.tasks == SetStatusById(old(app.tasks), id, status)
    {
      app.tasks := SetStatusById(app.tasks, id, status);
    }

    /** `handleDelete(id)`; `confirmed` is the answer to the confirmation dialog. */
    method HandleDelete(id: int, confirmed: bool)
      modifies app`tasks
      ensures confirmed ==> app.tasks == RemoveKey(old(app.tasks), TaskId, id)
      ensures !confirmed ==> app.tasks == old(app.tasks)
    {
      if confirmed {
        app.tasks := RemoveKey(app.tasks, TaskId, id);
      }
    }

    /** `startEdit(task)`: the row turns into a form on a copy of the task. */
    method StartEdit(t: Task)
      modifies this`editingId, this`tempTask
      ensures editingId == Some(t.id) && tempTask == TaskDraftOf(t)
    {
      editingId := Some(t.id);
      tempTask := TaskDraftOf(t);
    }

    /** `saveEdit`. */
    method SaveEdit()
      modifies app`tasks, this`editingId, this`tempTask
      ensures !(TruthyId(old(editingId)) && Filled(old(tempTask).title)) ==>
        app.tasks == old(app.tasks) && editingId == old(editingId) && tempTask == old(tempTask)
      ensures TruthyId(old(editingId)) && Filled(old(tempTask).title) ==>
        app.tasks == EditById(old(app.tasks), old(editingId).value, old(tempTask)) &&
        editingId.None? && tempTask == EmptyTaskDraft
    {
      if TruthyId(editingId) && Filled(tempTask.title) {
        app.tasks := EditById(app.tasks, editingId.value, tempTask);
        editingId := None;
        tempTask := EmptyTaskDraft;
      }
    }

    /** `cancelEdit`: the tasks are not touched. */
    method CancelEdit()
      modifies this`editingId, this`tempTask
      ensures editingId.None? && tempTask == EmptyTaskDraft
    {
      editingId := None;
      tempTask := EmptyTaskDraft;
    }

    /** `startAdd`. */
    method StartAdd()
      modifies this`isAdding, this`tempTask
      ensures isAdding && tempTask == AddDraft
    {
      isAdding := true;
      tempTask := AddDraft;
    }

    /** The add form's "Cancelar": the draft stays as it is. */
    method CloseAdd()
      modifies this`isAdding
      ensures !isAdding
    {
      isAdding := false;
    }

    /** `saveAdd`. */
    method SaveAdd()
      modifies app`tasks, this`isAdding, this`tempTask
      ensures !Filled(old(tempTask).title) ==>
        app.tasks == old(app.tasks) && isAdding == old(isAdding) && tempTask == old(tempTask)
      ensures Filled(old(tempTask).title) ==>
        app.tasks == old(app.tasks) + [NewPlanningTask(old(app.tasks), old(tempTask))] &&
        !isAdding && tempTask == EmptyTaskDraft
    {
      if Filled(tempTask.title) {
        app.tasks := app.tasks + [NewPlanningTask(app.tasks, tempTask)];
        isAdding := false;
        tempTask := EmptyTaskDraft;
      }
    }
  }
}
