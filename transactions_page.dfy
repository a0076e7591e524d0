/** The transactions page (src/pages/Transactions.tsx): the list filtered
    by an optional start and end date, both inclusive, and its income,
    expense and balance. An empty date input is `None`; a filled one is the
    instant it parses to, compared with the transaction's own instant. */
module TransactionsPage {
  import opened Calendar
  import opened Seqs
  import opened Records

  /** The `filter` predicate: not before the start, not after the end. */
  predicate InRange(start: Option<Date>, end: Option<Date>, d: Date)
    ensures start == Some(d) && end == Some(d) ==> InRange(start, end, d)
    ensures start.Some? && end.Some? && Before(end.value, start.value) ==> !InRange(start, end, d)
    ensures start.None? && end.None? ==> InRange(start, end, d)
  {
    && (start.None? || !Before(d, start.value))
    && (end.None? || !Before(end.value, d))
  }

  function InRangeFn(start: Option<Date>, end: Option<Date>): Transaction -> bool
  {
    (t: Transaction) => InRange(start, end, t.date)
  }

  /** `filteredTransactions`: exactly the transactions within the bounds,
      in their original order, each as many times as it occurs in `txs`. */
  function FilteredTransactions(txs: seq<Transaction>, start: Option<Date>, end: Option<Date>): (r: seq<Transaction>)
    ensures forall i :: 0 <= i < |r| ==> r[i] in txs && InRange(start, end, r[i].date)
    ensures forall i :: 0 <= i < |txs| && InRange(start, end, txs[i].date) ==> txs[i] in r
    ensures forall t :: multiset(r)[t] == if InRange(start, end, t.date) then multiset(txs)[t] else 0
    ensures IsSubsequence(r, txs)
  {
    FilterIsSubsequence(txs, InRangeFn(start, end));
    FilterCounts(txs, InRangeFn(start, end));
    Filter(txs, InRangeFn(start, end))
  }

  /** Both bounds are inclusive: a transaction at the very instant of the
      start or of the end is kept. */
  lemma BoundsAreInclusive(txs: seq<Transaction>, start: Date, end: Date, i: nat)
    requires i < |txs| && (txs[i].date == start || txs[i].date == end)
    requires AtOrBefore(start, end)
    ensures txs[i] in FilteredTransactions(txs, Some(start), Some(end))
  {
  }

  /** Without bounds every transaction is kept, in input order. */
  lemma NoBoundsKeepEverything(txs: seq<Transaction>)
    ensures FilteredTransactions(txs, None, None) == txs
  {
    FilterKeepsAll(txs, InRangeFn(None, None));
  }

  /** A start after the end keeps nothing, and every total is zero. */
  lemma CrossedBoundsKeepNothing(txs: seq<Transaction>, start: Date, end: Date)
    requires Before(end, start)
    ensures FilteredTransactions(txs, Some(start), Some(end)) == []
    ensures Summary(txs, Some(start), Some(end)) == Totals(0, 0, 0)
  {
    FilterNone(txs, InRangeFn(Some(start), Some(end)));
  }

  /** `income`, `expense` and `balance` of the filtered list; narrowing the
      dates never raises a per-type total. */
  function Summary(txs: seq<Transaction>, start: Option<Date>, end: Option<Date>): (r: Totals)
    ensures var shown := FilteredTransactions(txs, start, end);
      r.income == SumOfKind(shown, Income) && r.expense == SumOfKind(shown, Expense)
    ensures r.balance == r.income - r.expense
    ensures r.income <= SumOfKind(txs, Income) && r.expense <= SumOfKind(txs, Expense)
  {
    var shown := FilteredTransactions(txs, start, end);
    FilterMonotone(shown, txs, OfKind(Income));
    FilterMonotone(shown, txs, OfKind(Expense));
    SubsequenceSumLe(Filter(shown, OfKind(Income)), Filter(txs, OfKind(Income)), AmountOf);
    SubsequenceSumLe(Filter(shown, OfKind(Expense)), Filter(txs, OfKind(Expense)), AmountOf);
    TotalsOf(shown)
  }
}
