/** The dashboard's record shapes and their closed value domains, and the
    partial records ("drafts") that the forms edit before a save. A draft
    field that is `None` is a key the draft does not carry; merging a draft
    over a record (`{ ...record, ...draft }`) takes every key the draft
    carries and keeps the record's value for the rest. */
module Types {
  import opened JsRuntime

  // ---------------------------------------------------------------------
  // Tasks

  datatype TaskStatus = Pending | InProgress | Done

  datatype Priority = Low | Medium | High | Critical

  /** The string a status select carries for each status. */
  function StatusName(s: TaskStatus): (name: string)
    ensures name in {"pending", "in-progress", "done"}
  {
    match s
    case Pending => "pending"
    case InProgress => "in-progress"
    case Done => "done"
  }

  /** Each status has its own name, so comparing names is comparing statuses. */
  lemma StatusNameInjective(a: TaskStatus, b: TaskStatus)
    ensures StatusName(a) == StatusName(b) <==> a == b
  {
  }

  /** A checklist entry of a task. The task modal writes these fields in
      place, so a subtask is an object that several arrays can share. */
  class Subtask {
    var id: int
    var title: string
    var completed: bool

    constructor (id: int, title: string, completed: bool)
      ensures this.id == id && this.title == title && this.completed == completed
    {
      this.id := id;
      this.title := title;
      this.completed := completed;
    }
  }

  /** A task. `description`, `assigneeId` and `subtasks` are read and
      written by the task modal only. */
  datatype Task = Task(
    id: int,
    category: string,
    title: string,
    status: TaskStatus,
    priority: Priority,
    date: Option<string>,
    description: Option<string>,
    assigneeId: Option<int>,
    subtasks: Option<seq<Subtask>>)

  function TaskId(t: Task): int {
    t.id
  }

  /** The editable part of a task form (`Partial<Task>`). */
  datatype TaskDraft = TaskDraft(
    category: Option<string>,
    title: Option<string>,
    status: Option<TaskStatus>,
    priority: Option<Priority>,
    date: Option<string>)

  const EmptyTaskDraft := TaskDraft(None, None, None, None, None)

  /** `{ ...task }` as a draft: every editable key present. */
  function TaskDraftOf(t: Task): (d: TaskDraft)
    ensures d.category == Some(t.category) && d.title == Some(t.title)
    ensures d.status == Some(t.status) && d.priority == Some(t.priority)
    ensures d.date == t.date
  {
    TaskDraft(Some(t.category), Some(t.title), Some(t.status), Some(t.priority), t.date)
  }

  /** `{ ...t, ...d }`. */
  function MergeTask(t: Task, d: TaskDraft): Task {
    t.(category := d.category.GetOr(t.category),
       title := d.title.GetOr(t.title),
       status := d.status.GetOr(t.status),
       priority := d.priority.GetOr(t.priority),
       date := if d.date.Some? then d.date else t.date)
  }

  /** A merge never changes the id nor the modal-only fields, and takes each
      editable field from the draft exactly when the draft carries it. */
  lemma MergeTaskFields(t: Task, d: TaskDraft)
    ensures MergeTask(t, d).id == t.id
    ensures MergeTask(t, d).description == t.description
    ensures MergeTask(t, d).assigneeId == t.assigneeId
    ensures MergeTask(t, d).subtasks == t.subtasks
    ensures MergeTask(t, d).category == if d.category.Some? then d.category.value else t.category
    ensures MergeTask(t, d).title == if d.title.Some? then d.title.value else t.title
    ensures MergeTask(t, d).status == if d.status.Some? then d.status.value else t.status
    ensures MergeTask(t, d).priority == if d.priority.Some? then d.priority.value else t.priority
    ensures MergeTask(t, d).date == if d.date.Some? then d.date else t.date
  {
  }

  /** Saving an untouched copy of a task changes nothing. */
  lemma MergeTaskDraftOf(t: Task)
    ensures MergeTask(t, TaskDraftOf(t)) == t
  {
  }

  /** Merging the empty draft changes nothing. */
  lemma MergeEmptyTaskDraft(t: Task)
    ensures MergeTask(t, EmptyTaskDraft) == t
  {
  }

  // ---------------------------------------------------------------------
  // Budget items (no id: identified by position)

  /** `allocated` is a reserved word in Dafny, so the field is `allocation`. */
  datatype BudgetItem = BudgetItem(category: string, allocation: int, spent: int, notes: string)

  datatype BudgetDraft = BudgetDraft(
    category: Option<string>, allocation: Option<int>, spent: Option<int>, notes: Option<string>)

  const EmptyBudgetDraft := BudgetDraft(None, None, None, None)

  function BudgetDraftOf(b: BudgetItem): BudgetDraft {
    BudgetDraft(Some(b.category), Some(b.allocation), Some(b.spent), Some(b.notes))
  }

  function MergeBudget(b: BudgetItem, d: BudgetDraft): BudgetItem {
    BudgetItem(d.category.GetOr(b.category), d.allocation.GetOr(b.allocation),
               d.spent.GetOr(b.spent), d.notes.GetOr(b.notes))
  }

  lemma MergeBudgetDraftOf(b: BudgetItem)
    ensures MergeBudget(b, BudgetDraftOf(b)) == b
  {
  }

  function Allocated(b: BudgetItem): int {
    b.allocation
  }

  function Spent(b: BudgetItem): int {
    b.spent
  }

  // ---------------------------------------------------------------------
  // Speakers

  datatype SpeakerStatus = SpeakerPending | Contacted | Confirmed | Declined

  datatype SpeakerType = National | International

  datatype Speaker = Speaker(
    id: int, name: string, role: string, topic: string,
    status: SpeakerStatus, speakerType: SpeakerType, image: Option<string>)

  datatype SpeakerDraft = SpeakerDraft(
    name: Option<string>, role: Option<string>, topic: Option<string>,
    status: Option<SpeakerStatus>, speakerType: Option<SpeakerType>, image: Option<string>)

  const EmptySpeakerDraft := SpeakerDraft(None, None, None, None, None, None)

  function SpeakerId(s: Speaker): int {
    s.id
  }

  function SpeakerDraftOf(s: Speaker): SpeakerDraft {
    SpeakerDraft(Some(s.name), Some(s.role), Some(s.topic), Some(s.status), Some(s.speakerType), s.image)
  }

  function MergeSpeaker(s: Speaker, d: SpeakerDraft): Speaker {
    s.(name := d.name.GetOr(s.name), role := d.role.GetOr(s.role),
       topic := d.topic.GetOr(s.topic), status := d.status.GetOr(s.status),
       speakerType := d.speakerType.GetOr(s.speakerType),
       image := if d.image.Some? then d.image else s.image)
  }

  lemma MergeSpeakerDraftOf(s: Speaker)
    ensures MergeSpeaker(s, SpeakerDraftOf(s)) == s
  {
  }

  // ---------------------------------------------------------------------
  // Sponsors

  datatype Tier = Diamante | Oro | Plata | Bronce

  datatype SponsorStatus = Prospect | SponsorContacted | Negotiation | SponsorConfirmed | Paid

  datatype Sponsor = Sponsor(id: int, name: string, level: Tier, amount: int, status: SponsorStatus)

  datatype SponsorDraft = SponsorDraft(
    name: Option<string>, level: Option<Tier>, amount: Option<int>, status: Option<SponsorStatus>)

  const EmptySponsorDraft := SponsorDraft(None, None, None, None)

  function SponsorId(s: Sponsor): int {
    s.id
  }

  function SponsorDraftOf(s: Sponsor): SponsorDraft {
    SponsorDraft(Some(s.name), Some(s.level), Some(s.amount), Some(s.status))
  }

  function MergeSponsor(s: Sponsor, d: SponsorDraft): Sponsor {
    s.(name := d.name.GetOr(s.name), level := d.level.GetOr(s.level),
       amount := d.amount.GetOr(s.amount), status := d.status.GetOr(s.status))
  }

  lemma MergeSponsorDraftOf(s: Sponsor)
    ensures MergeSponsor(s, SponsorDraftOf(s)) == s
  {
  }

  /** A sponsor counts as secured once confirmed or paid. */
  predicate Secured(s: Sponsor) {
    s.status == SponsorConfirmed || s.status == Paid
  }

  // ---------------------------------------------------------------------
  // Universities

  datatype UniversityStatus = UniPending | UniContacted | UniNegotiation | Signed

  datatype University = University(id: int, name: string, status: UniversityStatus, students: int, contact: string)

  datatype UniversityDraft = UniversityDraft(
    name: Option<string>, status: Option<UniversityStatus>, students: Option<int>, contact: Option<string>)

  const EmptyUniversityDraft := UniversityDraft(None, None, None, None)

  function UniversityId(u: University): int {
    u.id
  }

  function UniversityDraftOf(u: University): UniversityDraft {
    UniversityDraft(Some(u.name), Some(u.status), Some(u.students), Some(u.contact))
  }

  function MergeUniversity(u: University, d: UniversityDraft): University {
    u.(name := d.name.GetOr(u.name), status := d.status.GetOr(u.status),
       students := d.students.GetOr(u.students), contact := d.contact.GetOr(u.contact))
  }

  lemma MergeUniversityDraftOf(u: University)
    ensures MergeUniversity(u, UniversityDraftOf(u)) == u
  {
  }

  // ---------------------------------------------------------------------
  // Campaigns

  datatype CampaignStatus = Active | CampaignPending | Completed

  datatype Campaign = Campaign(
    id: int, phase: string, dates: string, status: CampaignStatus, channels: seq<string>, progress: int)

  datatype CampaignDraft = CampaignDraft(
    phase: Option<string>, dates: Option<string>, status: Option<CampaignStatus>,
    channels: Option<seq<string>>, progress: Option<int>)

  const EmptyCampaignDraft := CampaignDraft(None, None, None, None, None)

  function CampaignId(c: Campaign): int {
    c.id
  }

  function CampaignDraftOf(c: Campaign): CampaignDraft {
    CampaignDraft(Some(c.phase), Some(c.dates), Some(c.status), Some(c.channels), Some(c.progress))
  }

  function MergeCampaign(c: Campaign, d: CampaignDraft): Campaign {
    c.(phase := d.phase.GetOr(c.phase), dates := d.dates.GetOr(c.dates),
       status := d.status.GetOr(c.status), channels := d.channels.GetOr(c.channels),
       progress := d.progress.GetOr(c.progress))
  }

  lemma MergeCampaignDraftOf(c: Campaign)
    ensures MergeCampaign(c, CampaignDraftOf(c)) == c
  {
  }

  // ---------------------------------------------------------------------
  // Marketing metrics

  datatype MetricUnit = Number | Percent | Currency

  datatype Platform = Instagram | Facebook | LinkedIn | Email | Website | Other

  datatype MarketingMetric = MarketingMetric(
    id: int, name: string, value: int, target: int, unit: MetricUnit, platform: Platform, lastUpdated: string)

  datatype MetricDraft = MetricDraft(
    name: Option<string>, value: Option<int>, target: Option<int>,
    unit: Option<MetricUnit>, platform: Option<Platform>, lastUpdated: Option<string>)

  const EmptyMetricDraft := MetricDraft(None, None, None, None, None, None)

  function MetricId(m: MarketingMetric): int {
    m.id
  }

  function MetricDraftOf(m: MarketingMetric): MetricDraft {
    MetricDraft(Some(m.name), Some(m.value), Some(m.target), Some(m.unit), Some(m.platform), Some(m.lastUpdated))
  }

  function MergeMetric(m: MarketingMetric, d: MetricDraft): MarketingMetric {
    m.(name := d.name.GetOr(m.name), value := d.value.GetOr(m.value),
       target := d.target.GetOr(m.target), unit := d.unit.GetOr(m.unit),
       platform := d.platform.GetOr(m.platform), lastUpdated := d.lastUpdated.GetOr(m.lastUpdated))
  }

  lemma MergeMetricDraftOf(m: MarketingMetric)
    ensures MergeMetric(m, MetricDraftOf(m)) == m
  {
  }

  // ---------------------------------------------------------------------
  // Event configuration

  /** One target per sponsor tier. */
  datatype TierTargets = TierTargets(diamante: int, oro: int, plata: int, bronce: int) {
    function Get(t: Tier): int {
      match t
      case Diamante => diamante
      case Oro => oro
      case Plata => plata
      case Bronce => bronce
    }

    /** `{ ...targets, [t]: v }`. */
    function Set(t: Tier, v: int): (r: TierTargets)
      ensures r.Get(t) == v
      ensures forall u :: u != t ==> r.Get(u) == Get(u)
    {
      match t
      case Diamante => this.(diamante := v)
      case Oro => this.(oro := v)
      case Plata => this.(plata := v)
      case Bronce => this.(bronce := v)
    }
  }

  /** Two target records that agree on every tier are the same record. */
  lemma TierTargetsExtensional(a: TierTargets, b: TierTargets)
    requires forall t :: a.Get(t) == b.Get(t)
    ensures a == b
  {
    assert a.Get(Diamante) == b.Get(Diamante) && a.Get(Oro) == b.Get(Oro);
    assert a.Get(Plata) == b.Get(Plata) && a.Get(Bronce) == b.Get(Bronce);
  }

  datatype EventConfig = EventConfig(
    eventName: string,
    eventDate: string,
    targetAttendees: int,
    sponsorsTarget: int,
    totalBudget: int,
    universityTarget: int,
    studentTarget: int,
    sponsorTargets: TierTargets)
}
