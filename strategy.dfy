/** The strategy view: the event's objectives, which the view owns, with an
    add form and a delete button. A new objective's id is the clock reading
    at the time of the add, taken here as a parameter. */
module Strategy {
  import opened JsRuntime
  import opened Collections

  datatype ObjectiveStatus = Defined | ObjectivePending

  datatype Objective = Objective(id: int, text: string, status: ObjectiveStatus)

  function ObjectiveId(o: Objective): int {
    o.id
  }

  const INITIAL_OBJECTIVES: seq<Objective> := [
    Objective(1, "Posicionar la cumbre como el evento tributario #1 de Ecuador", Defined),
    Objective(2, "Alcanzar 1,500-2,000 asistentes (70% universitarios)", Defined),
    Objective(3, "Generar 50 leads comerciales de alto valor", ObjectivePending),
    Objective(4, "Conseguir 10-15 auspiciantes", Defined)
  ]

  /** A deleted objective is gone and the others keep their order, when ids
      are unique. */
  lemma DeleteKeepsOthers(os: seq<Objective>, i: int)
    requires 0 <= i < |os| && UniqueKeys(os, ObjectiveId)
    ensures RemoveKey(os, ObjectiveId, os[i].id) == os[..i] + os[i + 1..]
    ensures UniqueKeys(RemoveKey(os, ObjectiveId, os[i].id), ObjectiveId)
  {
    RemoveKeyAt(os, ObjectiveId, i);
    RemoveKeyKeepsUnique(os, ObjectiveId, os[i].id);
  }

  class StrategyView {
    var objectives: seq<Objective>
    var isAddingObj: bool
    var newObj: string

    constructor ()
      ensures objectives == INITIAL_OBJECTIVES && !isAddingObj && newObj == ""
    {
      objectives := INITIAL_OBJECTIVES;
      isAddingObj := false;
      newObj := "";
    }

    /** The "+ Añadir" button. */
    method OpenAdd()
      modifies this`isAddingObj
      ensures isAddingObj
    {
      isAddingObj := true;
    }

    method SetText(v: string)
      modifies this`newObj
      ensures newObj == v
    {
      newObj := v;
    }

    /** `addObjective`; `now` is `Date.now()`. */
    method AddObjective(now: int)
      modifies this
      ensures old(newObj) == "" ==>
        objectives == old(objectives) && isAddingObj == old(isAddingObj) && newObj == old(newObj)
      ensures old(newObj) != "" ==>
        objectives == old(objectives) + [Objective(now, old(newObj), ObjectivePending)] &&
        !isAddingObj && newObj == ""
    {
      if newObj != "" {
        objectives := objectives + [Objective(now, newObj, ObjectivePending)];
        newObj := "";
        isAddingObj := false;
      }
    }

    /** The trash button: no confirmation is asked. */
    method DeleteObjective(id: int)
      modifies this`objectives
      ensures objectives == RemoveKey(old(objectives), ObjectiveId, id)
    {
      objectives := RemoveKey(objectives, ObjectiveId, id);
    }
  }
}
