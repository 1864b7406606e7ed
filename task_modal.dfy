/** The task detail modal: a draft copy of one task, edited in place, with a
    checklist of subtasks, an assignee picked from the team, and buttons to
    save, cancel and delete. Saving and deleting are calls back into the
    page that opened the modal; here they are recorded in `saved`,
    `deletedIds` and `closed`.

    A task's subtasks are objects. The draft starts as the very task it was
    opened on, so the draft and the original share their subtask objects.
    The checklist handlers as written copy the array but then write into
    the shared object; the corrected handlers write into a fresh copy. */
module TaskModal {
  import opened JsRuntime
  import opened Types
  import opened Collections
  import Auth

  // ---------------------------------------------------------------------
  // Subtasks

  /** The subtask array of a task (`task.subtasks || []`). */
  function Cells(t: Task): seq<Subtask> {
    t.subtasks.GetOr([])
  }

  // ---------------------------------------------------------------------
  // Assignee (lines 139, 150)

  /** A team member as the modal shows it. */
  datatype Member = Member(id: int, name: string)

  /** The assignee select's value: the empty option means no assignee,
      any other option is a member id written in decimal. */
  function AssigneeFromSelect(sel: string): (a: Option<int>)
    requires sel == "" || AllDigits(sel)
    ensures a.None? <==> sel == ""
  {
    if sel == "" then None else Some(DigitsValue(sel))
  }

  /** Picking a member's option stores that member's id; picking the empty
      option clears the assignee. */
  lemma SelectRoundTrip(id: nat)
    ensures AssigneeFromSelect(NatToString(id)) == Some(id)
    ensures AssigneeFromSelect("") == None
  {
    NatToStringRoundTrip(id);
  }

  /** `members.find(m => m.id === id)?.name`. */
  function FindName(members: seq<Member>, id: int): (r: Option<string>)
    ensures r.None? <==> forall i :: 0 <= i < |members| ==> members[i].id != id
    ensures r.Some? ==> exists i :: 0 <= i < |members| && members[i].id == id && members[i].name == r.value &&
                                    forall j :: 0 <= j < i ==> members[j].id != id
    decreases |members|
  {
    if members == [] then None
    else if members[0].id == id then Some(members[0].name)
    else
      var r := FindName(members[1..], id);
      assert forall i :: 1 <= i < |members| ==> members[i] == members[1..][i - 1];
      r
  }

  /** The assignee line of the read-only view. `None` is an `undefined`
      name, shown as nothing: an id no member has. A missing id, and id 0,
      read as "Sin asignar". */
  function AssigneeLabel(assigneeId: Option<int>, members: seq<Member>): (r: Option<string>)
    ensures !TruthyId(assigneeId) ==> r == Some("Sin asignar")
    ensures TruthyId(assigneeId) ==> r == FindName(members, assigneeId.value)
  {
    if TruthyId(assigneeId) then FindName(members, assigneeId.value) else Some("Sin asignar")
  }

  /** A dangling id shows no name and no error; a member's id shows the name
      of the first member with it. */
  lemma AssigneeLabelCases(id: int, members: seq<Member>)
    requires id != 0
    ensures AssigneeLabel(Some(id), members).None? <==> forall i :: 0 <= i < |members| ==> members[i].id != id
    ensures forall i :: 0 <= i < |members| && members[i].id == id && (forall j :: 0 <= j < i ==> members[j].id != id) ==>
      AssigneeLabel(Some(id), members) == Some(members[i].name)
  {
  }

  // ---------------------------------------------------------------------
  // The modal

  class TaskModalView {
    /** The task the modal was opened on. */
    const task: Task
    const members: seq<Member>
    /** `hasPermission('edit:planning')` and `hasPermission('delete:task')`. */
    const canEdit: bool
    const canDelete: bool
    var editedTask: Task
    var isEditing: bool
    /** The tasks handed to `onSave`, oldest first. */
    var saved: seq<Task>
    /** The ids handed to `onDelete`. */
    var deletedIds: seq<int>
    var closed: bool

    /** `useState(task)`: the draft is the task itself, sharing its subtasks. */
    constructor (task: Task, members: seq<Member>, canEdit: bool, canDelete: bool)
      ensures this.task == task && this.members == members
      ensures this.canEdit == canEdit && this.canDelete == canDelete
      ensures editedTask == task && !isEditing && saved == [] && deletedIds == [] && !closed
    {
      this.task := task;
      this.members := members;
      this.canEdit := canEdit;
      this.canDelete := canDelete;
      editedTask := task;
      isEditing := false;
      saved := [];
      deletedIds := [];
      closed := false;
    }

    /** "Editar Tarea", shown only with the edit permission. */
    method StartEditing()
      modifies this`isEditing
      ensures isEditing == (old(isEditing) || canEdit)
    {
      if canEdit {
        isEditing := true;
      }
    }

    /** `handleSave`, behind "Guardar Cambios" in edit mode: the whole draft
        goes to `onSave`. */
    method HandleSave()
      requires isEditing
      modifies this`saved, this`isEditing
      ensures saved == old(saved) + [editedTask] && !isEditing
    {
      saved := saved + [editedTask];
      isEditing := false;
    }

    /** "Cancelar", in edit mode: the draft goes back to the task the modal
        was opened on. */
    method Cancel()
      requires isEditing
      modifies this`editedTask, this`isEditing
      ensures editedTask == task && !isEditing
    {
      editedTask := task;
      isEditing := false;
    }

    /** The header's close button. */
    method Close()
      modifies this`closed
      ensures closed
    {
      closed := true;
    }

    /** "Eliminar Tarea", shown only with the delete permission: after
        confirmation, `onDelete(id)` and then `onClose`. */
    method Delete(confirmed: bool)
      modifies this`deletedIds, this`closed
      ensures canDelete && confirmed ==> deletedIds == old(deletedIds) + [editedTask.id] && closed
      ensures !(canDelete && confirmed) ==> deletedIds == old(deletedIds) && closed == old(closed)
    {
      if canDelete && confirmed {
        deletedIds := deletedIds + [editedTask.id];
        closed := true;
      }
    }

    // The inputs below exist only in edit mode (every other control is
    // rendered as text then), hence `requires isEditing`; the subtask
    // checkbox is always rendered but disabled unless the user may edit or
    // is editing.

    /** The assignee select. */
    method SetAssignee(sel: string)
      requires isEditing
      requires sel == "" || AllDigits(sel)
      modifies this`editedTask
      ensures editedTask == old(editedTask).(assigneeId := AssigneeFromSelect(sel))
    {
      editedTask := editedTask.(assigneeId := AssigneeFromSelect(sel));
    }

    /** The title input of the header. */
    method SetTitle(v: string)
      requires isEditing
      modifies this`editedTask
      ensures editedTask == old(editedTask).(title := v)
    {
      editedTask := editedTask.(title := v);
    }

    method SetStatus(v: TaskStatus)
      requires isEditing
      modifies this`editedTask
      ensures editedTask == old(editedTask).(status := v)
    {
      editedTask := editedTask.(status := v);
    }

    method SetPriority(v: Priority)
      requires isEditing
      modifies this`editedTask
      ensures editedTask == old(editedTask).(priority := v)
    {
      editedTask := editedTask.(priority := v);
    }

    /** The date input: clearing it stores the empty string, not "no date". */
    method SetDate(v: string)
      requires isEditing
      modifies this`editedTask
      ensures editedTask == old(editedTask).(date := Some(v))
    {
      editedTask := editedTask.(date := Some(v));
    }

    method SetCategory(v: string)
      requires isEditing
      modifies this`editedTask
      ensures editedTask == old(editedTask).(category := v)
    {
      editedTask := editedTask.(category := v);
    }

    method SetDescription(v: string)
      requires isEditing
      modifies this`editedTask
      ensures editedTask == old(editedTask).(description := Some(v))
    {
      editedTask := editedTask.(description := Some(v));
    }

    /** The checkbox of subtask `index`, as written: the array is copied but
        the subtask object is written in place, so the task the modal was
        opened on changes too. Out of edit mode the change is saved at once. */
    method ToggleSubtaskAsWritten(index: int, checked: bool)
      requires canEdit || isEditing
      requires 0 <= index < |Cells(editedTask)|
      modifies this`editedTask, this`saved, Cells(editedTask)[index]
      ensures editedTask == old(editedTask).(subtasks := Some(old(Cells(editedTask))))
      ensures Cells(editedTask)[index].completed == checked
      ensures Cells(editedTask)[index].title == old(Cells(editedTask)[index].title)
      ensures old(Cells(editedTask)) == Cells(task) ==> Cells(task)[index].completed == checked
      ensures saved == if isEditing then old(saved) else old(saved) + [editedTask]
    {
      var newSubtasks := Cells(editedTask);
      newSubtasks[index].completed := checked;
      editedTask := editedTask.(subtasks := Some(newSubtasks));
      if !isEditing {
        saved := saved + [editedTask];
      }
    }

    /** The title input of subtask `index`, as written: the shared object is
        written in place. */
    method RetitleSubtaskAsWritten(index: int, title: string)
      requires isEditing
      requires 0 <= index < |Cells(editedTask)|
      modifies this`editedTask, Cells(editedTask)[index]
      ensures editedTask == old(editedTask).(subtasks := Some(old(Cells(editedTask))))
      ensures Cells(editedTask)[index].title == title
      ensures Cells(editedTask)[index].completed == old(Cells(editedTask)[index].completed)
      ensures old(Cells(editedTask)) == Cells(task) ==> Cells(task)[index].title == title
    {
      var newSubtasks := Cells(editedTask);
      newSubtasks[index].title := title;
      editedTask := editedTask.(subtasks := Some(newSubtasks));
    }

    /** The checkbox of subtask `index`, writing into a fresh copy of the
        subtask: only the draft's entry changes, and the task the modal was
        opened on keeps its contents. */
    method ToggleSubtask(index: int, checked: bool)
      requires canEdit || isEditing
      requires 0 <= index < |Cells(editedTask)|
      modifies this`editedTask, this`saved
      ensures |Cells(editedTask)| == |old(Cells(editedTask))|
      ensures editedTask == old(editedTask).(subtasks := Some(old(Cells(editedTask))[index := Cells(editedTask)[index]]))
      ensures fresh(Cells(editedTask)[index])
      ensures Cells(editedTask)[index].completed == checked
      ensures Cells(editedTask)[index].id == old(Cells(editedTask)[index].id)
      ensures Cells(editedTask)[index].title == old(Cells(editedTask)[index].title)
      ensures unchanged(Cells(task))
      ensures saved == if isEditing then old(saved) else old(saved) + [editedTask]
    {
      var cells := Cells(editedTask);
      var c := cells[index];
      var copy := new Subtask(c.id, c.title, checked);
      editedTask := editedTask.(subtasks := Some(cells[index := copy]));
      if !isEditing {
        saved := saved + [editedTask];
      }
    }

    /** The title input of subtask `index`, writing into a fresh copy. */
    method RetitleSubtask(index: int, title: string)
      requires isEditing
      requires 0 <= index < |Cells(editedTask)|
      modifies this`editedTask
      ensures |Cells(editedTask)| == |old(Cells(editedTask))|
      ensures editedTask == old(editedTask).(subtasks := Some(old(Cells(editedTask))[index := Cells(editedTask)[index]]))
      ensures fresh(Cells(editedTask)[index])
      ensures Cells(editedTask)[index].title == title
      ensures Cells(editedTask)[index].id == old(Cells(editedTask)[index].id)
      ensures Cells(editedTask)[index].completed == old(Cells(editedTask)[index].completed)
      ensures unchanged(Cells(task))
    {
      var cells := Cells(editedTask);
      var c := cells[index];
      var copy := new Subtask(c.id, title, c.completed);
      editedTask := editedTask.(subtasks := Some(cells[index := copy]));
    }

    /** The trash button of subtask `index`: that entry leaves the draft and
        the others keep their order. */
    method RemoveSubtask(index: int)
      requires isEditing
      modifies this`editedTask
      ensures editedTask == old(editedTask).(subtasks := Some(RemoveIndex(old(Cells(editedTask)), index)))
      ensures 0 <= index < |old(Cells(editedTask))| ==> |Cells(editedTask)| == |old(Cells(editedTask))| - 1
    {
      editedTask := editedTask.(subtasks := Some(RemoveIndex(Cells(editedTask), index)));
    }

    /** "Añadir subtarea": one empty, unchecked subtask at the end; `now`
        is `Date.now()`. */
    method AppendSubtask(now: int)
      requires isEditing
      modifies this`editedTask
      ensures |Cells(editedTask)| == |old(Cells(editedTask))| + 1
      ensures editedTask == old(editedTask).(subtasks := Some(old(Cells(editedTask)) + [Cells(editedTask)[|Cells(editedTask)| - 1]]))
      ensures var n := Cells(editedTask)[|Cells(editedTask)| - 1];
        fresh(n) && n.id == now && n.title == "" && !n.completed
      ensures unchanged(Cells(task))
    {
      var n := new Subtask(now, "", false);
      editedTask := editedTask.(subtasks := Some(Cells(editedTask) + [n]));
    }
  }

  /** The modal as the page opens it: both permissions come from the
      unscoped check, so neither is held. */
  method Open(task: Task, members: seq<Member>, auth: Auth.AuthProvider) returns (m: TaskModalView)
    ensures m.task == task && m.editedTask == task && !m.isEditing
    ensures m.canEdit == auth.HasPermission(Auth.EditPlanning, None, None) && !m.canEdit
    ensures m.canDelete == auth.HasPermission(Auth.DeleteTask, None, None) && !m.canDelete
  {
    auth.UnscopedCheckRefused(Auth.EditPlanning);
    auth.UnscopedCheckRefused(Auth.DeleteTask);
    m := new TaskModalView(task, members, auth.HasPermission(Auth.EditPlanning, None, None),
                           auth.HasPermission(Auth.DeleteTask, None, None));
  }

  // ---------------------------------------------------------------------
  // Retitle, then cancel

  /** As written: a user who may edit renames the only subtask from "a" to
      "b" and cancels. The draft is reset to the original task, but that
      task's subtask was renamed too, so "b" is what remains. */
  method RetitleThenCancelAsWritten() returns (before: string, after: string)
    ensures before == "a" && after == "b"
  {
    var c := new Subtask(1, "a", false);
    var t := Task(1, "General", "Revisar", Pending, Medium, None, None, None, Some([c]));
    var m := new TaskModalView(t, [], true, false);
    before := Cells(m.task)[0].title;
    m.StartEditing();
    m.RetitleSubtaskAsWritten(0, "b");
    m.Cancel();
    after := Cells(m.editedTask)[0].title;
  }

  /** Corrected: with the copying handler, cancelling gives back "a". */
  method RetitleThenCancel() returns (before: string, after: string)
    ensures before == "a" && after == "a"
  {
    var c := new Subtask(1, "a", false);
    var t := Task(1, "General", "Revisar", Pending, Medium, None, None, None, Some([c]));
    var m := new TaskModalView(t, [], true, false);
    before := Cells(m.task)[0].title;
    m.StartEditing();
    m.RetitleSubtask(0, "b");
    m.Cancel();
    after := Cells(m.editedTask)[0].title;
  }
}
