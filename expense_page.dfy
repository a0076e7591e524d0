/** The handler state of the expense page (src/pages/Expense.tsx): the
    filters, the transaction being edited and the delete confirmation. The
    remote `deleteTransaction` call is recorded in `deleteCalls` and its
    outcome is a parameter; error toasts are recorded in `errorToasts`. */
module ExpensePage {
  import opened Seqs
  import opened Records
  import opened ListFilters

  const EditMissingId := "Cannot edit: Transaction ID is missing"
  const DeleteMissingId := "Cannot delete: Transaction ID is missing"
  const DeleteFailed := "Failed to delete transaction"
  const NothingToDelete := "Cannot delete: No transaction ID"

  class ExpensePage {
    var dateRange: DateRange
    var selectedCategories: seq<string>
    var editingTransaction: Option<Transaction>
    var deleteDialogOpen: bool
    var transactionToDelete: Option<Transaction>
    var deleteCalls: seq<int>
    var errorToasts: seq<string>

    /** Only records with an id are ever staged or sent for deletion, and the
        category selection holds no duplicates. */
    ghost predicate Valid()
      reads this
    {
      && NoDuplicates(selectedCategories)
      && (editingTransaction.Some? ==> HasId(editingTransaction.value))
      && (transactionToDelete.Some? ==> HasId(transactionToDelete.value))
      && (forall i :: 0 <= i < |deleteCalls| ==> deleteCalls[i] != 0)
    }

    constructor()
      ensures Valid()
      ensures dateRange == NoRange && selectedCategories == []
      ensures editingTransaction == None && transactionToDelete == None && !deleteDialogOpen
      ensures deleteCalls == [] && errorToasts == []
    {
      dateRange := NoRange;
      selectedCategories := [];
      editingTransaction := None;
      deleteDialogOpen := false;
      transactionToDelete := None;
      deleteCalls := [];
      errorToasts := [];
    }

    /** `expenseTransactions`: the expense records the filters let through, in
        input order, each as often as in `txs`. */
    function Listed(txs: seq<Transaction>): (r: seq<Transaction>)
      reads this
      ensures forall i :: 0 <= i < |r| ==> r[i].kind == Expense && r[i] in txs
      ensures forall t :: multiset(r)[t] == if Shown(Expense, dateRange, selectedCategories, t) then multiset(txs)[t] else 0
      ensures IsSubsequence(r, txs)
      ensures dateRange.from.None? && selectedCategories == [] ==> r == Filter(txs, OfKind(Expense))
    {
      var r := PageTransactions(txs, Expense, dateRange, selectedCategories);
      FilterIsSubsequence(txs, OfKind(Expense));
      SubsequenceTransitive(r, Filter(txs, OfKind(Expense)), txs);
      NoFiltersListWholeType(txs, Expense, dateRange.to);
      r
    }

    /** `totalExpense`: never more than all expenses together. */
    function Total(txs: seq<Transaction>): (r: nat)
      reads this
      ensures r == SumAmounts(Listed(txs))
      ensures r <= TotalsOf(txs).expense
    {
      PageTotal(txs, Expense, dateRange, selectedCategories)
    }

    /** `onDateRangeChange`. */
    method SetDateRange(range: DateRange)
      modifies this
      requires Valid()
      ensures Valid()
      ensures dateRange == range && selectedCategories == old(selectedCategories)
      ensures editingTransaction == old(editingTransaction) && transactionToDelete == old(transactionToDelete)
      ensures deleteDialogOpen == old(deleteDialogOpen)
      ensures deleteCalls == old(deleteCalls) && errorToasts == old(errorToasts)
    {
      dateRange := range;
    }

    /** `handleToggleCategory`. */
    method HandleToggleCategory(c: string)
      modifies this
      requires Valid()
      ensures Valid()
      ensures c in selectedCategories <==> c !in old(selectedCategories)
      ensures forall x :: x != c ==> (x in selectedCategories <==> x in old(selectedCategories))
      ensures selectedCategories == ToggleCategory(old(selectedCategories), c)
      ensures dateRange == old(dateRange)
      ensures editingTransaction == old(editingTransaction) && transactionToDelete == old(transactionToDelete)
      ensures deleteDialogOpen == old(deleteDialogOpen)
      ensures deleteCalls == old(deleteCalls) && errorToasts == old(errorToasts)
    {
      selectedCategories := ToggleCategory(selectedCategories, c);
    }

    /** `onClearAll`: the selection becomes empty and every expense of the
        picked range is listed again. */
    method ClearAll()
      modifies this
      requires Valid()
      ensures Valid()
      ensures selectedCategories == [] && dateRange == old(dateRange)
      ensures editingTransaction == old(editingTransaction) && transactionToDelete == old(transactionToDelete)
      ensures deleteDialogOpen == old(deleteDialogOpen)
      ensures deleteCalls == old(deleteCalls) && errorToasts == old(errorToasts)
    {
      selectedCategories := [];
    }

    /** `handleEditClick`: a record with an id opens the editor; one without
        leaves the state as it was and raises an error toast. */
    method HandleEditClick(t: Transaction)
      modifies this
      requires Valid()
      ensures Valid()
      ensures HasId(t) ==> editingTransaction == Some(t) && errorToasts == old(errorToasts)
      ensures !HasId(t) ==> editingTransaction == old(editingTransaction) && errorToasts == old(errorToasts) + [EditMissingId]
      ensures dateRange == old(dateRange) && selectedCategories == old(selectedCategories)
      ensures transactionToDelete == old(transactionToDelete) && deleteDialogOpen == old(deleteDialogOpen)
      ensures deleteCalls == old(deleteCalls)
    {
      if HasId(t) {
        editingTransaction := Some(t);
      } else {
        errorToasts := errorToasts + [EditMissingId];
      }
    }

    /** The editor's `onClose`. */
    method CloseEditor()
      modifies this
      requires Valid()
      ensures Valid()
      ensures editingTransaction == None
      ensures dateRange == old(dateRange) && selectedCategories == old(selectedCategories)
      ensures transactionToDelete == old(transactionToDelete) && deleteDialogOpen == old(deleteDialogOpen)
      ensures deleteCalls == old(deleteCalls) && errorToasts == old(errorToasts)
    {
      editingTransaction := None;
    }

    /** `handleDeleteClick`: a record with an id is staged and the
        confirmation opens; one without leaves the state as it was and
        raises an error toast. */
    method HandleDeleteClick(t: Transaction)
      modifies this
      requires Valid()
      ensures Valid()
      ensures HasId(t) ==> transactionToDelete == Some(t) && deleteDialogOpen && errorToasts == old(errorToasts)
      ensures !HasId(t) ==> transactionToDelete == old(transactionToDelete) && deleteDialogOpen == old(deleteDialogOpen)
                            && errorToasts == old(errorToasts) + [DeleteMissingId]
      ensures dateRange == old(dateRange) && selectedCategories == old(selectedCategories)
      ensures editingTransaction == old(editingTransaction) && deleteCalls == old(deleteCalls)
    {
      if HasId(t) {
        transactionToDelete := Some(t);
        deleteDialogOpen := true;
      } else {
        errorToasts := errorToasts + [DeleteMissingId];
      }
    }

    /** The confirmation's `onOpenChange` (Cancel, Escape, clicking outside).
        Closing does not unstage the target. */
    method SetDeleteDialogOpen(open: bool)
      modifies this
      requires Valid()
      ensures Valid()
      ensures deleteDialogOpen == open && transactionToDelete == old(transactionToDelete)
      ensures dateRange == old(dateRange) && selectedCategories == old(selectedCategories)
      ensures editingTransaction == old(editingTransaction)
      ensures deleteCalls == old(deleteCalls) && errorToasts == old(errorToasts)
    {
      deleteDialogOpen := open;
    }

    /** `handleDeleteConfirm`: the staged record's id is sent for deletion;
        `deleteSucceeds` is the outcome of that remote call. On success the
        confirmation closes and the target is cleared; on failure both stay
        and an error toast is raised. With no staged record nothing is sent. */
    method HandleDeleteConfirm(deleteSucceeds: bool)
      modifies this
      requires Valid()
      ensures Valid()
      ensures old(transactionToDelete).Some? ==>
        && deleteCalls == old(deleteCalls) + [old(transactionToDelete).value.id]
        && (deleteSucceeds ==> !deleteDialogOpen && transactionToDelete == None && errorToasts == old(errorToasts))
        && (!deleteSucceeds ==> deleteDialogOpen == old(deleteDialogOpen) && transactionToDelete == old(transactionToDelete)
                                && errorToasts == old(errorToasts) + [DeleteFailed])
      ensures old(transactionToDelete).None? ==>
        && deleteCalls == old(deleteCalls) && errorToasts == old(errorToasts) + [NothingToDelete]
        && deleteDialogOpen == old(deleteDialogOpen) && transactionToDelete == None
      ensures dateRange == old(dateRange) && selectedCategories == old(selectedCategories)
      ensures editingTransaction == old(editingTransaction)
    {
      if transactionToDelete.Some? && HasId(transactionToDelete.value) {
        deleteCalls := deleteCalls + [transactionToDelete.value.id];
        if deleteSucceeds {
          deleteDialogOpen := false;
          transactionToDelete := None;
        } else {
          errorToasts := errorToasts + [DeleteFailed];
        }
      } else {
        errorToasts := errorToasts + [NothingToDelete];
      }
    }
  }
}
