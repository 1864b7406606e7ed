/** The budget view: the budget lines with their allocated and spent
    amounts, the totals over all lines, and editing by position (a line has
    no id). Deleting and opening a line for editing are refused without the
    finance permission; saving is not re-checked. */
module Budget {
  import opened JsRuntime
  import opened Types
  import opened Collections
  import opened Constants
  import opened Store
  import Auth

  // ---------------------------------------------------------------------
  // Totals (lines 19-20, 70)

  /** `totalAllocated`. */
  function TotalAllocated(items: seq<BudgetItem>): int {
    SumOf(items, Allocated)
  }

  /** `totalSpent`; the dashboard's `budgetSpent` is the same sum. */
  function TotalSpent(items: seq<BudgetItem>): int {
    SumOf(items, Spent)
  }

  /** What is left on one line. */
  function Balance(b: BudgetItem): int {
    b.allocation - b.spent
  }

  /** The difference of the two totals is the sum of the lines' balances. */
  lemma {:induction false} TotalsDifference(items: seq<BudgetItem>)
    ensures TotalAllocated(items) - TotalSpent(items) == SumOf(items, Balance)
    decreases |items|
  {
    if items != [] {
      TotalsDifference(items[..|items| - 1]);
    }
  }

  /** "Disponible": the total allocated less the total spent, which is what
      is left on each line, summed. */
  function Available(items: seq<BudgetItem>): (a: int)
    ensures a == SumOf(items, Balance)
  {
    TotalsDifference(items);
    TotalAllocated(items) - TotalSpent(items)
  }

  /** When no line has spent more than it was allocated, nothing is shown
      as overspent overall. */
  lemma NoLineOverspent(items: seq<BudgetItem>)
    requires forall i :: 0 <= i < |items| ==> items[i].spent <= items[i].allocation
    ensures Available(items) >= 0
  {
    SumNonNegative(items, Balance);
  }

  /** Adding a line adds its balance to what is available. */
  lemma AvailableAppend(items: seq<BudgetItem>, b: BudgetItem)
    ensures Available(items + [b]) == Available(items) + b.allocation - b.spent
  {
    SumAppend(items, [b], Balance);
    assert [b][..0] == [];
  }

  /** Amounts that are never negative give totals that are never negative. */
  lemma TotalsNonNegative(items: seq<BudgetItem>)
    requires forall i :: 0 <= i < |items| ==> items[i].allocation >= 0 && items[i].spent >= 0
    ensures TotalAllocated(items) >= 0 && TotalSpent(items) >= 0
  {
    SumNonNegative(items, Allocated);
    SumNonNegative(items, Spent);
  }

  /** The seed lines: 160000 allocated, 7000 spent, 153000 available. */
  lemma SeedTotals()
    ensures TotalAllocated(BUDGET_ITEMS) == 160000 && TotalSpent(BUDGET_ITEMS) == 7000
    ensures Available(BUDGET_ITEMS) == 153000
  {
    BudgetItemTotals();
  }

  // ---------------------------------------------------------------------
  // Edits by position

  /** `items.map((item, i) => i === idx ? { ...item, ...d } : item)`. */
  function MergeAt(items: seq<BudgetItem>, idx: int, d: BudgetDraft): (r: seq<BudgetItem>)
    ensures |r| == |items|
    ensures forall i :: 0 <= i < |items| ==> r[i] == if i == idx then MergeBudget(items[i], d) else items[i]
  {
    if 0 <= idx < |items| then items[idx := MergeBudget(items[idx], d)] else items
  }

  /** Deleting line i takes exactly its amounts off the totals. */
  lemma DeleteAdjustsTotals(items: seq<BudgetItem>, i: int)
    requires 0 <= i < |items|
    ensures TotalAllocated(RemoveIndex(items, i)) == TotalAllocated(items) - items[i].allocation
    ensures TotalSpent(RemoveIndex(items, i)) == TotalSpent(items) - items[i].spent
  {
    SumRemoveAt(items, i, Allocated);
    SumRemoveAt(items, i, Spent);
  }

  /** Saving an edit replaces one line's amounts in the totals, and changes
      nothing when the index is no longer in range. */
  lemma SaveEditAdjustsTotals(items: seq<BudgetItem>, idx: int, d: BudgetDraft)
    ensures 0 <= idx < |items| ==>
      TotalAllocated(MergeAt(items, idx, d)) ==
        TotalAllocated(items) - items[idx].allocation + MergeBudget(items[idx], d).allocation
    ensures 0 <= idx < |items| ==>
      TotalSpent(MergeAt(items, idx, d)) == TotalSpent(items) - items[idx].spent + MergeBudget(items[idx], d).spent
    ensures !(0 <= idx < |items|) ==> MergeAt(items, idx, d) == items
  {
    if 0 <= idx < |items| {
      SumReplaceAt(items, idx, MergeBudget(items[idx], d), Allocated);
      SumReplaceAt(items, idx, MergeBudget(items[idx], d), Spent);
    }
  }

  /** The line `saveAdd` appends. */
  function NewBudgetItem(d: BudgetDraft): (b: BudgetItem)
    requires Filled(d.category)
    ensures b.category == d.category.value
    ensures b.allocation == (if d.allocation.Some? then d.allocation.value else 0)
    ensures b.spent == (if d.spent.Some? then d.spent.value else 0)
    ensures b.notes == (if d.notes.Some? then d.notes.value else "")
  {
    BudgetItem(OrElse(d.category, "Nueva Partida"), d.allocation.GetOr(0), d.spent.GetOr(0), d.notes.GetOr(""))
  }

  /** Adding a line adds its amounts to the totals. */
  lemma SaveAddAdjustsTotals(items: seq<BudgetItem>, b: BudgetItem)
    ensures TotalAllocated(items + [b]) == TotalAllocated(items) + b.allocation
    ensures TotalSpent(items + [b]) == TotalSpent(items) + b.spent
  {
    SumAppend(items, [b], Allocated);
    SumAppend(items, [b], Spent);
    assert [b][..0] == [];
  }

  /** The draft the "Nueva Partida" button opens. */
  const AddDraft := BudgetDraft(Some(""), Some(0), Some(0), Some(""))

  class BudgetView {
    const app: AppState
    /** `hasPermission('manage:finances')`, fixed when the view is built. */
    const canManageFinances: bool
    var isAdding: bool
    var editingIdx: Option<int>
    var tempItem: BudgetDraft

    constructor (app: AppState, auth: Auth.AuthProvider)
      ensures this.app == app
      ensures canManageFinances == auth.HasPermission(Auth.ManageFinances, None, None)
      ensures !canManageFinances
      ensures !isAdding && editingIdx.None? && tempItem == EmptyBudgetDraft
    {
      this.app := app;
      canManageFinances := auth.HasPermission(Auth.ManageFinances, None, None);
      auth.UnscopedCheckRefused(Auth.ManageFinances);
      isAdding := false;
      editingIdx := None;
      tempItem := EmptyBudgetDraft;
    }

    /** `handleDelete(index)`. */
    method HandleDelete(index: int, confirmed: bool)
      modifies app`budgetItems
      ensures canManageFinances && confirmed ==> app.budgetItems == RemoveIndex(old(app.budgetItems), index)
      ensures !(canManageFinances && confirmed) ==> app.budgetItems == old(app.budgetItems)
    {
      if !canManageFinances {
        return;
      }
      if confirmed {
        app.budgetItems := RemoveIndex(app.budgetItems, index);
      }
    }

    /** `startEdit(index, item)`. */
    method StartEdit(index: int, item: BudgetItem)
      modifies this`editingIdx, this`tempItem
      ensures canManageFinances ==> editingIdx == Some(index) && tempItem == BudgetDraftOf(item)
      ensures !canManageFinances ==> editingIdx == old(editingIdx) && tempItem == old(tempItem)
    {
      if !canManageFinances {
        return;
      }
      editingIdx := Some(index);
      tempItem := BudgetDraftOf(item);
    }

    /** `saveEdit`: index 0 counts as set (the test is `!== null`), and the
        permission is not checked again. */
    method SaveEdit()
      modifies app`budgetItems, this`editingIdx, this`tempItem
      ensures !(old(editingIdx).Some? && Filled(old(tempItem).category)) ==>
        app.budgetItems == old(app.budgetItems) && editingIdx == old(editingIdx) && tempItem == old(tempItem)
      ensures old(editingIdx).Some? && Filled(old(tempItem).category) ==>
        app.budgetItems == MergeAt(old(app.budgetItems), old(editingIdx).value, old(tempItem)) &&
        editingIdx.None? && tempItem == EmptyBudgetDraft
    {
      if editingIdx.Some? && Filled(tempItem.category) {
        app.budgetItems := MergeAt(app.budgetItems, editingIdx.value, tempItem);
        editingIdx := None;
        tempItem := EmptyBudgetDraft;
      }
    }

    /** The row's cancel button: only the editing index is cleared. */
    method CancelEdit()
      modifies this`editingIdx
      ensures editingIdx.None?
    {
      editingIdx := None;
    }

    /** The "Nueva Partida" button, rendered only with the permission: without
        it the form cannot be opened. */
    method OpenAdd()
      modifies this`isAdding, this`tempItem
      ensures canManageFinances ==> isAdding && tempItem == AddDraft
      ensures !canManageFinances ==> isAdding == old(isAdding) && tempItem == old(tempItem)
    {
      if !canManageFinances {
        return;
      }
      isAdding := true;
      tempItem := AddDraft;
    }

    method CloseAdd()
      modifies this`isAdding
      ensures !isAdding
    {
      isAdding := false;
    }

    /** `saveAdd`, the check button of the open add form; the handler itself
        does not test the permission. */
    method SaveAdd()
      requires isAdding
      modifies app`budgetItems, this`isAdding, this`tempItem
      ensures !Filled(old(tempItem).category) ==>
        app.budgetItems == old(app.budgetItems) && isAdding == old(isAdding) && tempItem == old(tempItem)
      ensures Filled(old(tempItem).category) ==>
        app.budgetItems == old(app.budgetItems) + [NewBudgetItem(old(tempItem))] &&
        !isAdding && tempItem == EmptyBudgetDraft
    {
      if Filled(tempItem.category) {
        app.budgetItems := app.budgetItems + [NewBudgetItem(tempItem)];
        isAdding := false;
        tempItem := EmptyBudgetDraft;
      }
    }
  }
}
