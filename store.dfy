/** The application state that `App` holds and hands to the views: the
    task list, the budget lines, speakers, sponsors, universities, marketing
    campaigns and metrics, and the event configuration. A view that receives
    a list and its setter reads and replaces the corresponding field here. */
module Store {
  import opened JsRuntime
  import opened Types
  import opened Collections
  import opened Constants

  // ---------------------------------------------------------------------
  // The done/pending toggle shared by the dashboard rows and the timeline

  /** `status === 'done' ? 'pending' : 'done'`. */
  function NextStatus(s: TaskStatus): (r: TaskStatus)
    ensures r == Pending <==> s == Done
    ensures r == Done <==> s != Done
  {
    if s == Done then Pending else Done
  }

  function ToggleTask(t: Task): Task {
    t.(status := NextStatus(t.status))
  }

  /** `tasks.map(t => t.id === id ? { ...t, status: next } : t)`. */
  function ToggleById(tasks: seq<Task>, id: int): seq<Task> {
    UpdateKey(tasks, TaskId, id, ToggleTask)
  }

  /** The toggle flips done/pending on the tasks with that id and touches
      nothing else: no other field, no other task. */
  lemma ToggleByIdEffect(tasks: seq<Task>, id: int)
    ensures |ToggleById(tasks, id)| == |tasks|
    ensures forall i :: 0 <= i < |tasks| ==>
      var t, u := tasks[i], ToggleById(tasks, id)[i];
      u == (if t.id == id then t.(status := u.status) else t) &&
      (t.id == id ==> (u.status == Done <==> t.status != Done))
  {
  }

  /** Toggling twice restores done and pending, but an in-progress task ends
      up pending. */
  lemma ToggleTwice(tasks: seq<Task>, id: int)
    ensures |ToggleById(ToggleById(tasks, id), id)| == |tasks|
    ensures forall i :: 0 <= i < |tasks| ==>
      ToggleById(ToggleById(tasks, id), id)[i] ==
        if tasks[i].id == id && tasks[i].status == InProgress then tasks[i].(status := Pending)
        else tasks[i]
  {
  }

  /** `tasks.map(t => t.id === id ? { ...t, ...draft } : t)`, the edit-save of
      the planning and timeline views. */
  function EditById(tasks: seq<Task>, id: int, draft: TaskDraft): seq<Task> {
    UpdateKey(tasks, TaskId, id, t => MergeTask(t, draft))
  }

  /** An edit-save changes the tasks carrying that id, each by merging the
      draft over it, and no other task; ids are kept, so unique ids stay
      unique. */
  lemma EditByIdEffect(tasks: seq<Task>, id: int, draft: TaskDraft)
    ensures |EditById(tasks, id, draft)| == |tasks|
    ensures forall i :: 0 <= i < |tasks| ==>
      EditById(tasks, id, draft)[i] == if tasks[i].id == id then MergeTask(tasks[i], draft) else tasks[i]
    ensures UniqueKeys(tasks, TaskId) ==> UniqueKeys(EditById(tasks, id, draft), TaskId)
  {
    if UniqueKeys(tasks, TaskId) {
      UpdateKeyKeepsUnique(tasks, TaskId, id, t => MergeTask(t, draft));
    }
  }

  // ---------------------------------------------------------------------
  // Initial state

  const INITIAL_CONFIG := EventConfig(
    "Cumbre Tributaria Ecuador", "2026-06-15", 2000, 15, 120000, 5, 1500,
    TierTargets(2, 5, 8, 10))

  const INITIAL_UNIVERSITIES: seq<University> := [
    University(1, "ESPOL", Signed, 150, "Decano Facultad Economía"),
    University(2, "Universidad de Guayaquil", UniNegotiation, 300, "Director Carrera CPA"),
    University(3, "UEES", UniContacted, 0, "Coordinador Vinculación"),
    University(4, "Universidad Católica", Signed, 120, "Jefe de Carrera"),
    University(5, "UTEG", UniPending, 0, "Pendiente")
  ]

  const INITIAL_CAMPAIGNS: seq<Campaign> := [
    Campaign(1, "Fase 1: Expectativa", "Feb - Mar", Active, ["Instagram", "Email", "PR"], 45),
    Campaign(2, "Fase 2: Conversión", "Abr - May", CampaignPending, ["Ads", "Webinars", "Visitas"], 0),
    Campaign(3, "Fase 3: Último Impulso", "Junio", CampaignPending, ["SMS", "Remarketing"], 0)
  ]

  /** The seed metrics, stamped with the day the application starts. */
  function InitialMetrics(today: string): seq<MarketingMetric> {
    [MarketingMetric(1, "Alcance en Redes", 0, 50000, Number, Instagram, today),
     MarketingMetric(2, "Leads Landing Page", 0, 2000, Number, Website, today),
     MarketingMetric(3, "Tasa de Apertura Email", 0, 25, Percent, Email, today)]
  }

  class AppState {
    var tasks: seq<Task>
    var budgetItems: seq<BudgetItem>
    var speakers: seq<Speaker>
    var sponsors: seq<Sponsor>
    var universities: seq<University>
    var campaigns: seq<Campaign>
    var metrics: seq<MarketingMetric>
    var config: EventConfig

    /** The state `App` starts with; `today` is the ISO date of the start day. */
    constructor (today: string)
      ensures tasks == INITIAL_TASKS && budgetItems == BUDGET_ITEMS
      ensures speakers == SPEAKERS && sponsors == SPONSORS
      ensures universities == INITIAL_UNIVERSITIES && campaigns == INITIAL_CAMPAIGNS
      ensures metrics == InitialMetrics(today) && config == INITIAL_CONFIG
    {
      tasks := INITIAL_TASKS;
      budgetItems := BUDGET_ITEMS;
      speakers := SPEAKERS;
      sponsors := SPONSORS;
      universities := INITIAL_UNIVERSITIES;
      campaigns := INITIAL_CAMPAIGNS;
      metrics := InitialMetrics(today);
      config := INITIAL_CONFIG;
    }

    /** `handleTaskToggle(id)`. */
    method HandleTaskToggle(id: int)
      modifies this`tasks
      ensures tasks == ToggleById(old(tasks), id)
    {
      tasks := ToggleById(tasks, id);
    }
  }
}
