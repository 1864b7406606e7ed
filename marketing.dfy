/** The marketing view: the campaign phases with their channels and
    progress, and the marketing metrics with a progress bar against their
    target. Opening a form and deleting a metric need the marketing
    permission; saving does not check it again. */
module Marketing {
  import opened JsRuntime
  import opened Types
  import opened Collections
  import opened Store
  import Auth

  // ---------------------------------------------------------------------
  // Campaigns

  /** The draft `startAddCampaign` opens. */
  const CampaignAddDraft := CampaignDraft(Some(""), Some(""), Some(CampaignPending), Some([]), Some(0))

  /** The campaign `saveAddCampaign` appends. An empty channel list is kept
      (an array is truthy); an empty date text stays empty. */
  function NewCampaign(cs: seq<Campaign>, d: CampaignDraft): (c: Campaign)
    requires Filled(d.phase)
    ensures c.id == NextId(cs, CampaignId) && forall i :: 0 <= i < |cs| ==> cs[i].id < c.id
    ensures c.phase == d.phase.value
    ensures c.dates == (if d.dates.Some? then d.dates.value else "")
    ensures c.status == (if d.status.Some? then d.status.value else CampaignPending)
    ensures c.channels == (if d.channels.Some? then d.channels.value else [])
    ensures c.progress == (if d.progress.Some? then d.progress.value else 0)
  {
    Campaign(NextId(cs, CampaignId), d.phase.value, d.dates.GetOr(""), d.status.GetOr(CampaignPending),
             d.channels.GetOr([]), d.progress.GetOr(0))
  }

  /** `campaigns.map(c => c.id === id ? { ...c, ...d } : c)`. */
  function EditCampaign(cs: seq<Campaign>, id: int, d: CampaignDraft): (r: seq<Campaign>)
    ensures |r| == |cs|
    ensures forall i :: 0 <= i < |cs| ==> r[i] == if cs[i].id == id then MergeCampaign(cs[i], d) else cs[i]
    ensures UniqueKeys(cs, CampaignId) ==> UniqueKeys(r, CampaignId)
  {
    UpdateKey(cs, CampaignId, id, (c: Campaign) => MergeCampaign(c, d))
  }

  /** Saving an edit does not require a phase name, so a campaign can be
      saved with an empty one. */
  lemma EditCanBlankPhase(c: Campaign)
    requires c.id != 0
    ensures EditCampaign([c], c.id, CampaignDraftOf(c).(phase := Some("")))[0].phase == ""
  {
  }

  /** `toggleChannel`: a channel in the list is removed, every copy of it;
      a channel not in the list is appended. */
  function ToggledChannels(current: seq<string>, ch: string): (r: seq<string>)
    ensures ch in r <==> ch !in current
    ensures forall c :: c != ch ==> (c in r <==> c in current)
  {
    if ch in current then Filter(current, (c: string) => c != ch) else current + [ch]
  }

  /** Toggling a channel twice gives back the same set of channels, and the
      very same list when the channel was not selected at first. */
  lemma ToggleTwice(current: seq<string>, ch: string)
    ensures forall c :: c in ToggledChannels(ToggledChannels(current, ch), ch) <==> c in current
    ensures ch !in current ==> ToggledChannels(ToggledChannels(current, ch), ch) == current
  {
    if ch !in current {
      var keep := (c: string) => c != ch;
      FilterAppend(current, [ch], keep);
      FilterAll(current, keep);
      assert Filter([ch], keep) == [];
    }
  }

  // ---------------------------------------------------------------------
  // Metrics

  /** The draft `startAddMetric` opens, dated today. */
  function MetricAddDraft(today: string): MetricDraft {
    MetricDraft(Some(""), Some(0), Some(0), Some(Number), Some(Other), Some(today))
  }

  /** The metric `saveAddMetric` appends: dated today whatever the draft says. */
  function NewMetric(ms: seq<MarketingMetric>, d: MetricDraft, today: string): (m: MarketingMetric)
    requires Filled(d.name)
    ensures m.id == NextId(ms, MetricId) && forall i :: 0 <= i < |ms| ==> ms[i].id < m.id
    ensures m.name == d.name.value
    ensures m.value == (if d.value.Some? then d.value.value else 0)
    ensures m.target == (if d.target.Some? then d.target.value else 0)
    ensures m.unit == (if d.unit.Some? then d.unit.value else Number)
    ensures m.platform == (if d.platform.Some? then d.platform.value else Other)
    ensures m.lastUpdated == today
  {
    MarketingMetric(NextId(ms, MetricId), d.name.value, d.value.GetOr(0), d.target.GetOr(0),
                    d.unit.GetOr(Number), d.platform.GetOr(Other), today)
  }

  /** `metrics.map(m => m.id === id ? { ...m, ...d, lastUpdated: today } : m)`. */
  function EditMetric(ms: seq<MarketingMetric>, id: int, d: MetricDraft, today: string): (r: seq<MarketingMetric>)
    ensures |r| == |ms|
    ensures forall i :: 0 <= i < |ms| ==>
      r[i] == if ms[i].id == id then MergeMetric(ms[i], d).(lastUpdated := today) else ms[i]
    ensures UniqueKeys(ms, MetricId) ==> UniqueKeys(r, MetricId)
  {
    UpdateKey(ms, MetricId, id, (m: MarketingMetric) => MergeMetric(m, d).(lastUpdated := today))
  }

  /** Saving an unchanged copy of a metric only re-dates it. */
  lemma EditWithOwnCopy(ms: seq<MarketingMetric>, i: int, today: string)
    requires 0 <= i < |ms| && UniqueKeys(ms, MetricId)
    ensures EditMetric(ms, ms[i].id, MetricDraftOf(ms[i]), today) == ms[i := ms[i].(lastUpdated := today)]
  {
    var r := EditMetric(ms, ms[i].id, MetricDraftOf(ms[i]), today);
    forall j | 0 <= j < |ms|
      ensures r[j] == ms[i := ms[i].(lastUpdated := today)][j]
    {
      if ms[j].id == ms[i].id {
        assert MetricId(ms[j]) == MetricId(ms[i]);
        assert j == i;
        MergeMetricDraftOf(ms[i]);
      }
    }
  }

  /** `(value / target) >= 1`, the test that colours the bar green. */
  predicate MetricReached(m: MarketingMetric) {
    match Divide(m.value, m.target)
    case Finite(r) => r >= 1.0
    case PosInfinity => true
    case _ => false
  }

  /** `Math.min((value / target) * 100, 100)`, the width of the metric's bar. */
  function MetricBarWidth(m: MarketingMetric): Num {
    CappedPercent(m.value, m.target)
  }

  /** The bar is green exactly when it is full, for every value and target,
      a zero or negative target included. */
  lemma GreenExactlyWhenFull(m: MarketingMetric)
    ensures MetricReached(m) <==> MetricBarWidth(m) == Finite(100.0)
  {
  }

  /** With a positive target the bar turns green exactly when the value
      reaches the target. */
  lemma ReachedIff(m: MarketingMetric)
    requires m.target > 0
    ensures MetricReached(m) <==> m.value >= m.target
  {
    PercentReachesHundred(m.value, m.target);
    GreenExactlyWhenFull(m);
  }

  /** Adding and deleting keep campaign and metric ids unique. */
  lemma IdsStayUnique(cs: seq<Campaign>, cd: CampaignDraft, ms: seq<MarketingMetric>, md: MetricDraft,
                      today: string, id: int)
    requires UniqueKeys(cs, CampaignId) && UniqueKeys(ms, MetricId)
    ensures Filled(cd.phase) ==> UniqueKeys(cs + [NewCampaign(cs, cd)], CampaignId)
    ensures Filled(md.name) ==> UniqueKeys(ms + [NewMetric(ms, md, today)], MetricId)
    ensures UniqueKeys(RemoveKey(ms, MetricId, id), MetricId)
  {
    if Filled(cd.phase) {
      AppendNextKeepsUnique(cs, NewCampaign(cs, cd), CampaignId);
    }
    if Filled(md.name) {
      AppendNextKeepsUnique(ms, NewMetric(ms, md, today), MetricId);
    }
    RemoveKeyKeepsUnique(ms, MetricId, id);
  }

  // ---------------------------------------------------------------------
  // The view

  class MarketingView {
    const app: AppState
    /** `hasPermission('edit:marketing')`, fixed when the view is built. */
    const canEditMarketing: bool
    var isAddingCampaign: bool
    var editingCampaignId: Option<int>
    var tempCampaign: CampaignDraft
    var isAddingMetric: bool
    var editingMetricId: Option<int>
    var tempMetric: MetricDraft

    constructor (app: AppState, auth: Auth.AuthProvider)
      ensures this.app == app
      ensures canEditMarketing == auth.HasPermission(Auth.EditMarketing, None, None)
      ensures !canEditMarketing
      ensures !isAddingCampaign && editingCampaignId.None? && tempCampaign == EmptyCampaignDraft
      ensures !isAddingMetric && editingMetricId.None? && tempMetric == EmptyMetricDraft
    {
      this.app := app;
      canEditMarketing := auth.HasPermission(Auth.EditMarketing, None, None);
      auth.UnscopedCheckRefused(Auth.EditMarketing);
      isAddingCampaign := false;
      editingCampaignId := None;
      tempCampaign := EmptyCampaignDraft;
      isAddingMetric := false;
      editingMetricId := None;
      tempMetric := EmptyMetricDraft;
    }

    /** `startAddCampaign`. */
    method StartAddCampaign()
      modifies this`isAddingCampaign, this`tempCampaign
      ensures canEditMarketing ==> isAddingCampaign && tempCampaign == CampaignAddDraft
      ensures !canEditMarketing ==> isAddingCampaign == old(isAddingCampaign) && tempCampaign == old(tempCampaign)
    {
      if !canEditMarketing {
        return;
      }
      isAddingCampaign := true;
      tempCampaign := CampaignAddDraft;
    }

    /** `saveAddCampaign`. */
    method SaveAddCampaign()
      modifies app`campaigns, this`isAddingCampaign, this`tempCampaign
      ensures !Filled(old(tempCampaign).phase) ==>
        app.campaigns == old(app.campaigns) && isAddingCampaign == old(isAddingCampaign) &&
        tempCampaign == old(tempCampaign)
      ensures Filled(old(tempCampaign).phase) ==>
        app.campaigns == old(app.campaigns) + [NewCampaign(old(app.campaigns), old(tempCampaign))] &&
        !isAddingCampaign && tempCampaign == EmptyCampaignDraft
    {
      if Filled(tempCampaign.phase) {
        app.campaigns := app.campaigns + [NewCampaign(app.campaigns, tempCampaign)];
        isAddingCampaign := false;
        tempCampaign := EmptyCampaignDraft;
      }
    }

    method CloseAddCampaign()
      modifies this`isAddingCampaign
      ensures !isAddingCampaign
    {
      isAddingCampaign := false;
    }

    /** `startEditCampaign(campaign)`. */
    method StartEditCampaign(c: Campaign)
      modifies this`editingCampaignId, this`tempCampaign
      ensures canEditMarketing ==> editingCampaignId == Some(c.id) && tempCampaign == CampaignDraftOf(c)
      ensures !canEditMarketing ==>
        editingCampaignId == old(editingCampaignId) && tempCampaign == old(tempCampaign)
    {
      if !canEditMarketing {
        return;
      }
      editingCampaignId := Some(c.id);
      tempCampaign := CampaignDraftOf(c);
    }

    /** `saveEditCampaign`: only an editing id is needed. */
    method SaveEditCampaign()
      modifies app`campaigns, this`editingCampaignId, this`tempCampaign
      ensures !TruthyId(old(editingCampaignId)) ==>
        app.campaigns == old(app.campaigns) && editingCampaignId == old(editingCampaignId) &&
        tempCampaign == old(tempCampaign)
      ensures TruthyId(old(editingCampaignId)) ==>
        app.campaigns == EditCampaign(old(app.campaigns), old(editingCampaignId).value, old(tempCampaign)) &&
        editingCampaignId.None? && tempCampaign == EmptyCampaignDraft
    {
      if TruthyId(editingCampaignId) {
        app.campaigns := EditCampaign(app.campaigns, editingCampaignId.value, tempCampaign);
        editingCampaignId := None;
        tempCampaign := EmptyCampaignDraft;
      }
    }

    method CancelEditCampaign()
      modifies this`editingCampaignId
      ensures editingCampaignId.None?
    {
      editingCampaignId := None;
    }

    /** A channel button; the buttons exist only in the add form and in the
        row being edited. */
    method ToggleChannel(ch: string)
      requires isAddingCampaign || editingCampaignId.Some?
      modifies this`tempCampaign
      ensures tempCampaign == old(tempCampaign).(channels := Some(ToggledChannels(old(tempCampaign).channels.GetOr([]), ch)))
    {
      tempCampaign := tempCampaign.(channels := Some(ToggledChannels(tempCampaign.channels.GetOr([]), ch)));
    }

    /** `startAddMetric`; `today` is the current date as `yyyy-mm-dd`. */
    method StartAddMetric(today: string)
      modifies this`isAddingMetric, this`tempMetric
      ensures canEditMarketing ==> isAddingMetric && tempMetric == MetricAddDraft(today)
      ensures !canEditMarketing ==> isAddingMetric == old(isAddingMetric) && tempMetric == old(tempMetric)
    {
      if !canEditMarketing {
        return;
      }
      isAddingMetric := true;
      tempMetric := MetricAddDraft(today);
    }

    /** `saveAddMetric`. */
    method SaveAddMetric(today: string)
      modifies app`metrics, this`isAddingMetric, this`tempMetric
      ensures !Filled(old(tempMetric).name) ==>
        app.metrics == old(app.metrics) && isAddingMetric == old(isAddingMetric) && tempMetric == old(tempMetric)
      ensures Filled(old(tempMetric).name) ==>
        app.metrics == old(app.metrics) + [NewMetric(old(app.metrics), old(tempMetric), today)] &&
        !isAddingMetric && tempMetric == EmptyMetricDraft
    {
      if Filled(tempMetric.name) {
        app.metrics := app.metrics + [NewMetric(app.metrics, tempMetric, today)];
        isAddingMetric := false;
        tempMetric := EmptyMetricDraft;
      }
    }

    method CloseAddMetric()
      modifies this`isAddingMetric
      ensures !isAddingMetric
    {
      isAddingMetric := false;
    }

    /** `startEditMetric(metric)`. */
    method StartEditMetric(m: MarketingMetric)
      modifies this`editingMetricId, this`tempMetric
      ensures canEditMarketing ==> editingMetricId == Some(m.id) && tempMetric == MetricDraftOf(m)
      ensures !canEditMarketing ==> editingMetricId == old(editingMetricId) && tempMetric == old(tempMetric)
    {
      if !canEditMarketing {
        return;
      }
      editingMetricId := Some(m.id);
      tempMetric := MetricDraftOf(m);
    }

    /** `saveEditMetric`. */
    method SaveEditMetric(today: string)
      modifies app`metrics, this`editingMetricId, this`tempMetric
      ensures !(TruthyId(old(editingMetricId)) && Filled(old(tempMetric).name)) ==>
        app.metrics == old(app.metrics) && editingMetricId == old(editingMetricId) && tempMetric == old(tempMetric)
      ensures TruthyId(old(editingMetricId)) && Filled(old(tempMetric).name) ==>
        app.metrics == EditMetric(old(app.metrics), old(editingMetricId).value, old(tempMetric), today) &&
        editingMetricId.None? && tempMetric == EmptyMetricDraft
    {
      if TruthyId(editingMetricId) && Filled(tempMetric.name) {
        app.metrics := EditMetric(app.metrics, editingMetricId.value, tempMetric, today);
        editingMetricId := None;
        tempMetric := EmptyMetricDraft;
      }
    }

    method CancelEditMetric()
      modifies this`editingMetricId
      ensures editingMetricId.None?
    {
      editingMetricId := None;
    }

    /** `deleteMetric(id)`; `confirmed` is the answer to the confirmation dialog. */
    method DeleteMetric(id: int, confirmed: bool)
      modifies app`metrics
      ensures canEditMarketing && confirmed ==> app.metrics == RemoveKey(old(app.metrics), MetricId, id)
      ensures !(canEditMarketing && confirmed) ==> app.metrics == old(app.metrics)
    {
      if !canEditMarketing {
        return;
      }
      if confirmed {
        app.metrics := RemoveKey(app.metrics, MetricId, id);
      }
    }
  }
}
