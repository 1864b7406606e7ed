/** The speakers view: speaker cards with add, edit and delete. */
module Speakers {
  import opened JsRuntime
  import opened Types
  import opened Collections
  import opened Store

  /** `speakers.map(s => s.id === id ? { ...s, ...d } : s)`. */
  function EditSpeaker(ss: seq<Speaker>, id: int, d: SpeakerDraft): (r: seq<Speaker>)
    ensures |r| == |ss|
    ensures forall i :: 0 <= i < |ss| ==> r[i] == if ss[i].id == id then MergeSpeaker(ss[i], d) else ss[i]
    ensures UniqueKeys(ss, SpeakerId) ==> UniqueKeys(r, SpeakerId)
  {
    UpdateKey(ss, SpeakerId, id, (s: Speaker) => MergeSpeaker(s, d))
  }

  /** Saving the unchanged copy of a speaker leaves the list as it was. */
  lemma EditWithOwnCopy(ss: seq<Speaker>, i: int)
    requires 0 <= i < |ss| && UniqueKeys(ss, SpeakerId)
    ensures EditSpeaker(ss, ss[i].id, SpeakerDraftOf(ss[i])) == ss
  {
    var r := EditSpeaker(ss, ss[i].id, SpeakerDraftOf(ss[i]));
    forall j | 0 <= j < |ss|
      ensures r[j] == ss[j]
    {
      if ss[j].id == ss[i].id {
        assert SpeakerId(ss[j]) == SpeakerId(ss[i]);
        assert j == i;
        MergeSpeakerDraftOf(ss[i]);
      }
    }
  }

  /** The speaker `saveAdd` appends. An empty role, topic or image falls back
      to its default like a missing one; `fallbackImage` stands for the random
      placeholder address. */
  function NewSpeaker(ss: seq<Speaker>, d: SpeakerDraft, fallbackImage: string): (s: Speaker)
    requires Filled(d.name)
    ensures s.id == NextId(ss, SpeakerId) && forall i :: 0 <= i < |ss| ==> ss[i].id < s.id
    ensures s.name == d.name.value
    ensures s.role == (if Filled(d.role) then d.role.value else "Ponente")
    ensures s.topic == (if Filled(d.topic) then d.topic.value else "Tema por definir")
    ensures s.status == (if d.status.Some? then d.status.value else SpeakerPending)
    ensures s.speakerType == (if d.speakerType.Some? then d.speakerType.value else National)
    ensures s.image == Some(if Filled(d.image) then d.image.value else fallbackImage)
  {
    Speaker(NextId(ss, SpeakerId), d.name.value, OrElse(d.role, "Ponente"), OrElse(d.topic, "Tema por definir"),
            d.status.GetOr(SpeakerPending), d.speakerType.GetOr(National), Some(OrElse(d.image, fallbackImage)))
  }

  /** Adding and deleting keep speaker ids unique. */
  lemma SpeakerIdsStayUnique(ss: seq<Speaker>, d: SpeakerDraft, img: string, id: int)
    requires UniqueKeys(ss, SpeakerId)
    ensures Filled(d.name) ==> UniqueKeys(ss + [NewSpeaker(ss, d, img)], SpeakerId)
    ensures UniqueKeys(RemoveKey(ss, SpeakerId, id), SpeakerId)
  {
    if Filled(d.name) {
      AppendNextKeepsUnique(ss, NewSpeaker(ss, d, img), SpeakerId);
    }
    RemoveKeyKeepsUnique(ss, SpeakerId, id);
  }

  class SpeakersView {
    const app: AppState
    var isAdding: bool
    var editingId: Option<int>
    var tempSpeaker: SpeakerDraft

    constructor (app: AppState)
      ensures this.app == app && !isAdding && editingId.None? && tempSpeaker == EmptySpeakerDraft
    {
      this.app := app;
      isAdding := false;
      editingId := None;
      tempSpeaker := EmptySpeakerDraft;
    }

    /** `handleDelete(id)`; `confirmed` is the answer to the confirmation dialog. */
    method HandleDelete(id: int, confirmed: bool)
      modifies app`speakers
      ensures confirmed ==> app.speakers == RemoveKey(old(app.speakers), SpeakerId, id)
      ensures !confirmed ==> app.speakers == old(app.speakers)
    {
      if confirmed {
        app.speakers := RemoveKey(app.speakers, SpeakerId, id);
      }
    }

    method StartEdit(s: Speaker)
      modifies this`editingId, this`tempSpeaker
      ensures editingId == Some(s.id) && tempSpeaker == SpeakerDraftOf(s)
    {
      editingId := Some(s.id);
      tempSpeaker := SpeakerDraftOf(s);
    }

    /** `saveEdit`. */
    method SaveEdit()
      modifies app`speakers, this`editingId, this`tempSpeaker
      ensures !(TruthyId(old(editingId)) && Filled(old(tempSpeaker).name)) ==>
        app.speakers == old(app.speakers) && editingId == old(editingId) && tempSpeaker == old(tempSpeaker)
      ensures TruthyId(old(editingId)) && Filled(old(tempSpeaker).name) ==>
        app.speakers == EditSpeaker(old(app.speakers), old(editingId).value, old(tempSpeaker)) &&
        editingId.None? && tempSpeaker == EmptySpeakerDraft
    {
      if TruthyId(editingId) && Filled(tempSpeaker.name) {
        app.speakers := EditSpeaker(app.speakers, editingId.value, tempSpeaker);
        editingId := None;
        tempSpeaker := EmptySpeakerDraft;
      }
    }

    /** The card's "Cancelar": only the editing id is cleared. */
    method CancelEdit()
      modifies this`editingId
      ensures editingId.None?
    {
      editingId := None;
    }

    /** The "Agregar Ponente" card. */
    method OpenAdd()
      modifies this`isAdding, this`tempSpeaker
      ensures isAdding && tempSpeaker == EmptySpeakerDraft
    {
      isAdding := true;
      tempSpeaker := EmptySpeakerDraft;
    }

    method CloseAdd()
      modifies this`isAdding
      ensures !isAdding
    {
      isAdding := false;
    }

    /** `saveAdd`; `fallbackImage` is the placeholder address drawn at random. */
    method SaveAdd(fallbackImage: string)
      modifies app`speakers, this`isAdding, this`tempSpeaker
      ensures !Filled(old(tempSpeaker).name) ==>
        app.speakers == old(app.speakers) && isAdding == old(isAdding) && tempSpeaker == old(tempSpeaker)
      ensures Filled(old(tempSpeaker).name) ==>
        app.speakers == old(app.speakers) + [NewSpeaker(old(app.speakers), old(tempSpeaker), fallbackImage)] &&
        !isAdding && tempSpeaker == EmptySpeakerDraft
    {
      if Filled(tempSpeaker.name) {
        app.speakers := app.speakers + [NewSpeaker(app.speakers, tempSpeaker, fallbackImage)];
        isAdding := false;
        tempSpeaker := EmptySpeakerDraft;
      }
    }
  }
}
