/** The handler state of the income page (src/pages/Income.tsx). It mirrors
    the expense page except that failures are only logged to the console:
    no toast is raised and the state stays as it was. The remote
    `deleteTransaction` call is recorded in `deleteCalls` and its outcome is
    a parameter. */
module IncomePage {
  import opened Seqs
  import opened Records
  import opened ListFilters

  class IncomePage {
    var dateRange: DateRange
    var selectedCategories: seq<string>
    var editingTransaction: Option<Transaction>
    var deleteDialogOpen: bool
    var transactionToDelete: Option<Transaction>
    var deleteCalls: seq<int>

    /** Only records with an id are ever staged or sent for deletion, and the
        category selection holds no duplicates. */
    ghost predicate Valid()
      reads this
    {
      && NoDuplicates(selectedCategories)
      && (editingTransaction.Some? ==> HasId(editingTransaction.value))
      && (transactionToDelete.Some? ==> HasId(transactionToDelete.value))
      && (forall i :: 0 <= i < |deleteCalls| ==> deleteCalls[i] != 0)
    }

    constructor()
      ensures Valid()
      ensures dateRange == NoRange && selectedCategories == []
      ensures editingTransaction == None && transactionToDelete == None && !deleteDialogOpen
      ensures deleteCalls == []
    {
      dateRange := NoRange;
      selectedCategories := [];
      editingTransaction := None;
      deleteDialogOpen := false;
      transactionToDelete := None;
      deleteCalls := [];
    }

    /** `incomeTransactions`: the income records the filters let through, in
        input order, each as often as in `txs`. */
    function Listed(txs: seq<Transaction>): (r: seq<Transaction>)
      reads this
      ensures forall i :: 0 <= i < |r| ==> r[i].kind == Income && r[i] in txs
      ensures forall t :: multiset(r)[t] == if Shown(Income, dateRange, selectedCategories, t) then multiset(txs)[t] else 0
      ensures IsSubsequence(r, txs)
      ensures dateRange.from.None? && selectedCategories == [] ==> r == Filter(txs, OfKind(Income))
    {
      var r := PageTransactions(txs, Income, dateRange, selectedCategories);
      FilterIsSubsequence(txs, OfKind(Income));
      SubsequenceTransitive(r, Filter(txs, OfKind(Income)), txs);
      NoFiltersListWholeType(txs, Income, dateRange.to);
      r
    }

    /** `totalIncome`: never more than all income together. */
    function Total(txs: seq<Transaction>): (r: nat)
      reads this
      ensures r == SumAmounts(Listed(txs))
      ensures r <= TotalsOf(txs).income
    {
      PageTotal(txs, Income, dateRange, selectedCategories)
    }

    /** `onDateRangeChange`. */
    method SetDateRange(range: DateRange)
      modifies this
      requires Valid()
      ensures Valid()
      ensures dateRange == range && selectedCategories == old(selectedCategories)
      ensures editingTransaction == old(editingTransaction) && transactionToDelete == old(transactionToDelete)
      ensures deleteDialogOpen == old(deleteDialogOpen) && deleteCalls == old(deleteCalls)
    {
      dateRange := range;
    }

    /** `handleToggleCategory`. */
    method HandleToggleCategory(c: string)
      modifies this
      requires Valid()
      ensures Valid()
      ensures c in selectedCategories <==> c !in old(selectedCategories)
      ensures forall x :: x != c ==> (x in selectedCategories <==> x in old(selectedCategories))
      ensures selectedCategories == ToggleCategory(old(selectedCategories), c)
      ensures dateRange == old(dateRange)
      ensures editingTransaction == old(editingTransaction) && transactionToDelete == old(transactionToDelete)
      ensures deleteDialogOpen == old(deleteDialogOpen) && deleteCalls == old(deleteCalls)
    {
      selectedCategories := ToggleCategory(selectedCategories, c);
    }

    /** `onClearAll`. */
    method ClearAll()
      modifies this
      requires Valid()
      ensures Valid()
      ensures selectedCategories == [] && dateRange == old(dateRange)
      ensures editingTransaction == old(editingTransaction) && transactionToDelete == old(transactionToDelete)
      ensures deleteDialogOpen == old(deleteDialogOpen) && deleteCalls == old(deleteCalls)
    {
      selectedCategories := [];
    }

    /** `handleEditClick`: a record with an id opens the editor; one without
        changes nothing. */
    method HandleEditClick(t: Transaction)
      modifies this
      requires Valid()
      ensures Valid()
      ensures editingTransaction == if HasId(t) then Some(t) else old(editingTransaction)
      ensures dateRange == old(dateRange) && selectedCategories == old(selectedCategories)
      ensures transactionToDelete == old(transactionToDelete) && deleteDialogOpen == old(deleteDialogOpen)
      ensures deleteCalls == old(deleteCalls)
    {
      if HasId(t) {
        editingTransaction := Some(t);
      }
    }

    /** The editor's `onClose`. */
    method CloseEditor()
      modifies this
      requires Valid()
      ensures Valid()
      ensures editingTransaction == None
      ensures dateRange == old(dateRange) && selectedCategories == old(selectedCategories)
      ensures transactionToDelete == old(transactionToDelete) && deleteDialogOpen == old(deleteDialogOpen)
      ensures deleteCalls == old(deleteCalls)
    {
      editingTransaction := None;
    }

    /** `handleDeleteClick`: a record with an id is staged and the
        confirmation opens; one without changes nothing. */
    method HandleDeleteClick(t: Transaction)
      modifies this
      requires Valid()
      ensures Valid()
      ensures HasId(t) ==> transactionToDelete == Some(t) && deleteDialogOpen
      ensures !HasId(t) ==> transactionToDelete == old(transactionToDelete) && deleteDialogOpen == old(deleteDialogOpen)
      ensures dateRange == old(dateRange) && selectedCategories == old(selectedCategories)
      ensures editingTransaction == old(editingTransaction) && deleteCalls == old(deleteCalls)
    {
      if HasId(t) {
        transactionToDelete := Some(t);
        deleteDialogOpen := true;
      }
    }

    /** The confirmation's `onOpenChange`; closing does not unstage the target. */
    method SetDeleteDialogOpen(open: bool)
      modifies this
      requires Valid()
      ensures Valid()
      ensures deleteDialogOpen == open && transactionToDelete == old(transactionToDelete)
      ensures dateRange == old(dateRange) && selectedCategories == old(selectedCategories)
      ensures editingTransaction == old(editingTransaction) && deleteCalls == old(deleteCalls)
    {
      deleteDialogOpen := open;
    }

    /** `handleDeleteConfirm`: the staged record's id is sent for deletion;
        `deleteSucceeds` is the outcome of that remote call. On success the
        confirmation closes and the target is cleared; on failure, or with
        nothing staged, the state stays as it was. */
    method HandleDeleteConfirm(deleteSucceeds: bool)
      modifies this
      requires Valid()
      ensures Valid()
      ensures deleteCalls == old(deleteCalls) + (if old(transactionToDelete).Some? then [old(transactionToDelete).value.id] else [])
      ensures if old(transactionToDelete).Some? && deleteSucceeds
              then !deleteDialogOpen && transactionToDelete == None
              else deleteDialogOpen == old(deleteDialogOpen) && transactionToDelete == old(transactionToDelete)
      ensures dateRange == old(dateRange) && selectedCategories == old(selectedCategories)
      ensures editingTransaction == old(editingTransaction)
    {
      if transactionToDelete.Some? && HasId(transactionToDelete.value) {
        deleteCalls := deleteCalls + [transactionToDelete.value.id];
        if deleteSucceeds {
          deleteDialogOpen := false;
          transactionToDelete := None;
        }
      }
    }
  }
}
