/** The university alliances view: the alliance list with its handlers, the
    count of signed universities and of the students they bring, and the
    student target of the event configuration edited through a draft. */
module Alliances {
  import opened JsRuntime
  import opened Types
  import opened Collections
  import opened Store

  // ---------------------------------------------------------------------
  // Summary cards (lines 63-64)

  /** The students a university contributes: its count once signed, else none. */
  function SignedStudents(u: University): int {
    if u.status == Signed then u.students else 0
  }

  /** `totalStudents`: the students of the signed universities. */
  function TotalStudents(us: seq<University>): int {
    SumOf(us, SignedStudents)
  }

  predicate IsSigned(u: University) {
    u.status == Signed
  }

  /** `signedCount`: `universities.filter(u => u.status === 'signed').length`. */
  function SignedCount(us: seq<University>): (n: nat)
    ensures n == |Filter(us, IsSigned)|
    decreases |us|
  {
    if us == [] then 0 else (if us[0].status == Signed then 1 else 0) + SignedCount(us[1..])
  }

  /** Without a signed university there are no confirmed students. */
  lemma {:induction false} NoSignedNoStudents(us: seq<University>)
    requires SignedCount(us) == 0
    ensures TotalStudents(us) == 0
    decreases |us|
  {
    if us != [] {
      NoSignedNoStudents(us[1..]);
      SumPrefixStep(us, 0, SignedStudents);
      SumAppend([us[0]], us[1..], SignedStudents);
      assert [us[0]] + us[1..] == us;
    }
  }

  /** Counting signed universities is additive over a concatenation. */
  lemma SignedCountAppend(a: seq<University>, b: seq<University>)
    ensures SignedCount(a + b) == SignedCount(a) + SignedCount(b)
  {
    FilterAppend(a, b, IsSigned);
  }

  /** Signing a university raises the confirmed students by its count and the
      signed count by one; nothing else moves. */
  lemma SignEffect(us: seq<University>, i: int)
    requires 0 <= i < |us| && us[i].status != Signed
    ensures TotalStudents(us[i := us[i].(status := Signed)]) == TotalStudents(us) + us[i].students
    ensures SignedCount(us[i := us[i].(status := Signed)]) == SignedCount(us) + 1
  {
    var v := us[i].(status := Signed);
    SumReplaceAt(us, i, v, SignedStudents);
    var w := us[i := v];
    assert us == us[..i] + [us[i]] + us[i + 1..];
    assert w == us[..i] + [v] + us[i + 1..];
    SignedCountAppend(us[..i] + [us[i]], us[i + 1..]);
    SignedCountAppend(us[..i], [us[i]]);
    SignedCountAppend(us[..i] + [v], us[i + 1..]);
    SignedCountAppend(us[..i], [v]);
    assert [us[i]][1..] == [] && [v][1..] == [];
  }

  /** The seed alliances: two signed universities with 270 students. */
  lemma SeedSummary()
    ensures SignedCount(INITIAL_UNIVERSITIES) == 2
    ensures TotalStudents(INITIAL_UNIVERSITIES) == 270
  {
    SeedSigned();
    SeedStudents();
  }

  lemma SeedSigned()
    ensures SignedCount(INITIAL_UNIVERSITIES) == 2
  {
    var s := INITIAL_UNIVERSITIES;
    assert s[1..][1..][1..][1..][1..] == [];
  }

  lemma SeedStudents()
    ensures TotalStudents(INITIAL_UNIVERSITIES) == 270
  {
    var s := INITIAL_UNIVERSITIES;
    SumPrefixStep(s, 0, SignedStudents);
    SumPrefixStep(s, 1, SignedStudents);
    SumPrefixStep(s, 2, SignedStudents);
    SumPrefixStep(s, 3, SignedStudents);
    SumPrefixStep(s, 4, SignedStudents);
    assert s[..5] == s;
  }

  // ---------------------------------------------------------------------
  // List operations

  /** `universities.map(u => u.id === id ? { ...u, ...d } : u)`. */
  function EditUniversity(us: seq<University>, id: int, d: UniversityDraft): (r: seq<University>)
    ensures |r| == |us|
    ensures forall i :: 0 <= i < |us| ==> r[i] == if us[i].id == id then MergeUniversity(us[i], d) else us[i]
    ensures UniqueKeys(us, UniversityId) ==> UniqueKeys(r, UniversityId)
  {
    UpdateKey(us, UniversityId, id, (u: University) => MergeUniversity(u, d))
  }

  /** The university `saveAdd` appends. */
  function NewUniversity(us: seq<University>, d: UniversityDraft): (u: University)
    requires Filled(d.name)
    ensures u.id == NextId(us, UniversityId) && forall i :: 0 <= i < |us| ==> us[i].id < u.id
    ensures u.name == d.name.value
    ensures u.status == (if d.status.Some? then d.status.value else UniPending)
    ensures u.students == (if d.students.Some? then d.students.value else 0)
    ensures u.contact == (if d.contact.Some? then d.contact.value else "")
  {
    University(NextId(us, UniversityId), d.name.value, d.status.GetOr(UniPending),
               d.students.GetOr(0), d.contact.GetOr(""))
  }

  /** A new alliance starts unsigned unless the draft says otherwise, so it
      adds nothing to the confirmed students by default. */
  lemma NewAllianceAddsNoStudents(us: seq<University>, d: UniversityDraft)
    requires Filled(d.name) && d.status.None?
    ensures TotalStudents(us + [NewUniversity(us, d)]) == TotalStudents(us)
    ensures SignedCount(us + [NewUniversity(us, d)]) == SignedCount(us)
  {
    SumAppend(us, [NewUniversity(us, d)], SignedStudents);
    SumPrefixStep([NewUniversity(us, d)], 0, SignedStudents);
    SignedCountAppend(us, [NewUniversity(us, d)]);
    assert [NewUniversity(us, d)][..0] == [] && [NewUniversity(us, d)][1..] == [];
  }

  /** Adding and deleting keep university ids unique. */
  lemma UniversityIdsStayUnique(us: seq<University>, d: UniversityDraft, id: int)
    requires UniqueKeys(us, UniversityId)
    ensures Filled(d.name) ==> UniqueKeys(us + [NewUniversity(us, d)], UniversityId)
    ensures UniqueKeys(RemoveKey(us, UniversityId, id), UniversityId)
  {
    if Filled(d.name) {
      AppendNextKeepsUnique(us, NewUniversity(us, d), UniversityId);
    }
    RemoveKeyKeepsUnique(us, UniversityId, id);
  }

  // ---------------------------------------------------------------------
  // The view

  class AlliancesView {
    const app: AppState
    var isAdding: bool
    var editingId: Option<int>
    var tempUni: UniversityDraft
    var isEditingTarget: bool
    var tempTarget: int

    /** The target draft starts as the configured student target. */
    constructor (app: AppState)
      ensures this.app == app && !isAdding && editingId.None? && tempUni == EmptyUniversityDraft
      ensures !isEditingTarget && tempTarget == app.config.studentTarget
    {
      this.app := app;
      isAdding := false;
      editingId := None;
      tempUni := EmptyUniversityDraft;
      isEditingTarget := false;
      tempTarget := app.config.studentTarget;
    }

    /** `handleDelete(id)`; `confirmed` is the answer to the confirmation dialog. */
    method HandleDelete(id: int, confirmed: bool)
      modifies app`universities
      ensures confirmed ==> app.universities == RemoveKey(old(app.universities), UniversityId, id)
      ensures !confirmed ==> app.universities == old(app.universities)
    {
      if confirmed {
        app.universities := RemoveKey(app.universities, UniversityId, id);
      }
    }

    method StartEdit(u: University)
      modifies this`editingId, this`tempUni
      ensures editingId == Some(u.id) && tempUni == UniversityDraftOf(u)
    {
      editingId := Some(u.id);
      tempUni := UniversityDraftOf(u);
    }

    /** `saveEdit`. */
    method SaveEdit()
      modifies app`universities, this`editingId, this`tempUni
      ensures !(TruthyId(old(editingId)) && Filled(old(tempUni).name)) ==>
        app.universities == old(app.universities) && editingId == old(editingId) && tempUni == old(tempUni)
      ensures TruthyId(old(editingId)) && Filled(old(tempUni).name) ==>
        app.universities == EditUniversity(old(app.universities), old(editingId).value, old(tempUni)) &&
        editingId.None? && tempUni == EmptyUniversityDraft
    {
      if TruthyId(editingId) && Filled(tempUni.name) {
        app.universities := EditUniversity(app.universities, editingId.value, tempUni);
        editingId := None;
        tempUni := EmptyUniversityDraft;
      }
    }

    /** The row's cancel button: only the editing id is cleared. */
    method CancelEdit()
      modifies this`editingId
      ensures editingId.None?
    {
      editingId := None;
    }

    /** "Nueva Universidad". */
    method OpenAdd()
      modifies this`isAdding, this`tempUni
      ensures isAdding && tempUni == EmptyUniversityDraft
    {
      isAdding := true;
      tempUni := EmptyUniversityDraft;
    }

    method CloseAdd()
      modifies this`isAdding
      ensures !isAdding
    {
      isAdding := false;
    }

    /** `saveAdd`. */
    method SaveAdd()
      modifies app`universities, this`isAdding, this`tempUni
      ensures !Filled(old(tempUni).name) ==>
        app.universities == old(app.universities) && isAdding == old(isAdding) && tempUni == old(tempUni)
      ensures Filled(old(tempUni).name) ==>
        app.universities == old(app.universities) + [NewUniversity(old(app.universities), old(tempUni))] &&
        !isAdding && tempUni == EmptyUniversityDraft
    {
      if Filled(tempUni.name) {
        app.universities := app.universities + [NewUniversity(app.universities, tempUni)];
        isAdding := false;
        tempUni := EmptyUniversityDraft;
      }
    }

    /** Typing into the student target. */
    method SetTempTarget(v: int)
      modifies this`tempTarget
      ensures tempTarget == v
    {
      tempTarget := v;
    }

    /** The check button: the draft becomes the student target and nothing
        else of the configuration changes. */
    method SaveTarget()
      modifies app`config, this`isEditingTarget
      ensures app.config == old(app.config).(studentTarget := tempTarget) && !isEditingTarget
    {
      app.config := app.config.(studentTarget := tempTarget);
      isEditingTarget := false;
    }

    /** The pencil button: the draft restarts from the configured target. */
    method OpenTarget()
      modifies this`isEditingTarget, this`tempTarget
      ensures isEditingTarget && tempTarget == app.config.studentTarget
    {
      tempTarget := app.config.studentTarget;
      isEditingTarget := true;
    }
  }
}
