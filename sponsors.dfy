/** The sponsors view: the sponsor list with its add/edit/delete handlers,
    and the per-tier progress panel that counts secured sponsors against the
    targets of the event configuration, whose targets can be edited in a
    draft and saved. */
module Sponsors {
  import opened JsRuntime
  import opened Types
  import opened Collections
  import opened Constants
  import opened Store

  // ---------------------------------------------------------------------
  // List operations

  /** `sponsors.map(s => s.id === id ? { ...s, ...d } : s)`. */
  function EditSponsor(ss: seq<Sponsor>, id: int, d: SponsorDraft): (r: seq<Sponsor>)
    ensures |r| == |ss|
    ensures forall i :: 0 <= i < |ss| ==> r[i] == if ss[i].id == id then MergeSponsor(ss[i], d) else ss[i]
    ensures UniqueKeys(ss, SponsorId) ==> UniqueKeys(r, SponsorId)
  {
    UpdateKey(ss, SponsorId, id, (s: Sponsor) => MergeSponsor(s, d))
  }

  /** The sponsor `saveAdd` appends. */
  function NewSponsor(ss: seq<Sponsor>, d: SponsorDraft): (s: Sponsor)
    requires Filled(d.name)
    ensures s.id == NextId(ss, SponsorId) && forall i :: 0 <= i < |ss| ==> ss[i].id < s.id
    ensures s.name == d.name.value
    ensures s.level == (if d.level.Some? then d.level.value else Bronce)
    ensures s.amount == (if d.amount.Some? then d.amount.value else 0)
    ensures s.status == (if d.status.Some? then d.status.value else Prospect)
  {
    Sponsor(NextId(ss, SponsorId), d.name.value, d.level.GetOr(Bronce), d.amount.GetOr(0), d.status.GetOr(Prospect))
  }

  /** Adding and deleting keep sponsor ids unique. */
  lemma SponsorIdsStayUnique(ss: seq<Sponsor>, d: SponsorDraft, id: int)
    requires UniqueKeys(ss, SponsorId)
    ensures Filled(d.name) ==> UniqueKeys(ss + [NewSponsor(ss, d)], SponsorId)
    ensures UniqueKeys(RemoveKey(ss, SponsorId, id), SponsorId)
  {
    if Filled(d.name) {
      AppendNextKeepsUnique(ss, NewSponsor(ss, d), SponsorId);
    }
    RemoveKeyKeepsUnique(ss, SponsorId, id);
  }

  // ---------------------------------------------------------------------
  // Tier progress (lines 229-251)

  /** The filter of a tier's count: secured sponsors of that tier. */
  function SecuredIn(level: Tier): Sponsor -> bool {
    (s: Sponsor) => s.level == level && Secured(s)
  }

  /** `sponsors.filter(s => s.level === level && (confirmed or paid)).length`. */
  function TierCount(ss: seq<Sponsor>, level: Tier): (n: nat)
    ensures n == |Filter(ss, SecuredIn(level))|
    decreases |ss|
  {
    if ss == [] then 0
    else (if ss[0].level == level && Secured(ss[0]) then 1 else 0) + TierCount(ss[1..], level)
  }

  /** The count grows by one exactly with each secured sponsor of the tier. */
  lemma TierCountAppend(a: seq<Sponsor>, b: seq<Sponsor>, level: Tier)
    ensures TierCount(a + b, level) == TierCount(a, level) + TierCount(b, level)
  {
    FilterAppend(a, b, SecuredIn(level));
  }

  /** The count is zero exactly when no sponsor of the tier is secured. */
  lemma {:induction false} TierCountZero(ss: seq<Sponsor>, level: Tier)
    ensures TierCount(ss, level) == 0 <==> forall i :: 0 <= i < |ss| ==> !(ss[i].level == level && Secured(ss[i]))
    decreases |ss|
  {
    if ss != [] {
      TierCountZero(ss[1..], level);
      assert forall i :: 1 <= i < |ss| ==> ss[i] == ss[1..][i - 1];
    }
  }

  /** `(count / target) * 100`: unguarded, so a zero target gives an infinity or NaN. */
  function TierPercent(ss: seq<Sponsor>, targets: TierTargets, level: Tier): (p: Num)
    ensures targets.Get(level) != 0 ==>
      p == Finite((TierCount(ss, level) as real / targets.Get(level) as real) * 100.0)
    ensures targets.Get(level) == 0 ==> p == (if TierCount(ss, level) == 0 then NaN else PosInfinity)
  {
    PercentOf(TierCount(ss, level), targets.Get(level))
  }

  /** `Math.min(percent, 100)`, the width of the tier's bar. */
  function TierBarWidth(ss: seq<Sponsor>, targets: TierTargets, level: Tier): (w: Num)
    ensures w == CappedPercent(TierCount(ss, level), targets.Get(level))
  {
    MinWith(TierPercent(ss, targets, level), 100.0)
  }

  /** With a positive target the bar is full exactly when the target is met;
      with a zero target it is full as soon as one sponsor is secured, and NaN
      before. */
  lemma BarFullIff(ss: seq<Sponsor>, targets: TierTargets, level: Tier)
    ensures targets.Get(level) > 0 ==>
      (TierBarWidth(ss, targets, level) == Finite(100.0) <==> TierCount(ss, level) >= targets.Get(level))
    ensures targets.Get(level) == 0 ==>
      TierBarWidth(ss, targets, level) == (if TierCount(ss, level) > 0 then Finite(100.0) else NaN)
  {
    if targets.Get(level) > 0 {
      PercentReachesHundred(TierCount(ss, level), targets.Get(level));
    }
  }

  /** The seed sponsors: only the Plata sponsor is secured. */
  lemma SeedTierCounts()
    ensures TierCount(SPONSORS, Diamante) == 0 && TierCount(SPONSORS, Oro) == 0
    ensures TierCount(SPONSORS, Plata) == 1 && TierCount(SPONSORS, Bronce) == 0
  {
    var s := SPONSORS;
    assert s[1..][1..][1..] == [];
  }

  // ---------------------------------------------------------------------
  // The view

  class SponsorsView {
    const app: AppState
    var isAdding: bool
    var editingId: Option<int>
    var tempSponsor: SponsorDraft
    var isEditingTargets: bool
    var tempTargets: TierTargets

    /** The target draft starts as a copy of the configured targets. */
    constructor (app: AppState)
      ensures this.app == app && !isAdding && editingId.None? && tempSponsor == EmptySponsorDraft
      ensures !isEditingTargets && tempTargets == app.config.sponsorTargets
    {
      this.app := app;
      isAdding := false;
      editingId := None;
      tempSponsor := EmptySponsorDraft;
      isEditingTargets := false;
      tempTargets := app.config.sponsorTargets;
    }

    /** `handleDelete(id)`; `confirmed` is the answer to the confirmation dialog. */
    method HandleDelete(id: int, confirmed: bool)
      modifies app`sponsors
      ensures confirmed ==> app.sponsors == RemoveKey(old(app.sponsors), SponsorId, id)
      ensures !confirmed ==> app.sponsors == old(app.sponsors)
    {
      if confirmed {
        app.sponsors := RemoveKey(app.sponsors, SponsorId, id);
      }
    }

    method StartEdit(s: Sponsor)
      modifies this`editingId, this`tempSponsor
      ensures editingId == Some(s.id) && tempSponsor == SponsorDraftOf(s)
    {
      editingId := Some(s.id);
      tempSponsor := SponsorDraftOf(s);
    }

    /** `saveEdit`. */
    method SaveEdit()
      modifies app`sponsors, this`editingId, this`tempSponsor
      ensures !(TruthyId(old(editingId)) && Filled(old(tempSponsor).name)) ==>
        app.sponsors == old(app.sponsors) && editingId == old(editingId) && tempSponsor == old(tempSponsor)
      ensures TruthyId(old(editingId)) && Filled(old(tempSponsor).name) ==>
        app.sponsors == EditSponsor(old(app.sponsors), old(editingId).value, old(tempSponsor)) &&
        editingId.None? && tempSponsor == EmptySponsorDraft
    {
      if TruthyId(editingId) && Filled(tempSponsor.name) {
        app.sponsors := EditSponsor(app.sponsors, editingId.value, tempSponsor);
        editingId := None;
        tempSponsor := EmptySponsorDraft;
      }
    }

    /** The row's cancel button: only the editing id is cleared. */
    method CancelEdit()
      modifies this`editingId
      ensures editingId.None?
    {
      editingId := None;
    }

    /** "Nuevo Auspiciante". */
    method OpenAdd()
      modifies this`isAdding, this`tempSponsor
      ensures isAdding && tempSponsor == EmptySponsorDraft
    {
      isAdding := true;
      tempSponsor := EmptySponsorDraft;
    }

    method CloseAdd()
      modifies this`isAdding
      ensures !isAdding
    {
      isAdding := false;
    }

    /** `saveAdd`. */
    method SaveAdd()
      modifies app`sponsors, this`isAdding, this`tempSponsor
      ensures !Filled(old(tempSponsor).name) ==>
        app.sponsors == old(app.sponsors) && isAdding == old(isAdding) && tempSponsor == old(tempSponsor)
      ensures Filled(old(tempSponsor).name) ==>
        app.sponsors == old(app.sponsors) + [NewSponsor(old(app.sponsors), old(tempSponsor))] &&
        !isAdding && tempSponsor == EmptySponsorDraft
    {
      if Filled(tempSponsor.name) {
        app.sponsors := app.sponsors + [NewSponsor(app.sponsors, tempSponsor)];
        isAdding := false;
        tempSponsor := EmptySponsorDraft;
      }
    }

    /** The "Editar Metas" / "Guardar" button: saving writes the draft into
        the targets and nothing else of the configuration; opening copies the
        configured targets into the draft. */
    method ToggleTargets()
      modifies app`config, this`isEditingTargets, this`tempTargets
      ensures old(isEditingTargets) ==>
        app.config == old(app.config).(sponsorTargets := old(tempTargets)) &&
        !isEditingTargets && tempTargets == old(tempTargets)
      ensures !old(isEditingTargets) ==>
        app.config == old(app.config) && isEditingTargets && tempTargets == app.config.sponsorTargets
    {
      if isEditingTargets {
        app.config := app.config.(sponsorTargets := tempTargets);
        isEditingTargets := false;
      } else {
        tempTargets := app.config.sponsorTargets;
        isEditingTargets := true;
      }
    }

    /** Typing a tier's target changes that tier of the draft only. */
    method SetTierDraft(level: Tier, v: int)
      modifies this`tempTargets
      ensures tempTargets.Get(level) == v
      ensures forall t :: t != level ==> tempTargets.Get(t) == old(tempTargets).Get(t)
    {
      tempTargets := tempTargets.Set(level, v);
    }
  }
}
