/** The two "recent" lists of the dashboard
    (src/components/Dashboard/RecentTransactions.tsx): the transactions of one
    type, newest first, at most five. The comparator
    `(a, b) => b.date - a.date` becomes the relation "`a` may come before `b`
    when `b` is no later than `a`". */
module Recent {
  import opened Calendar
  import opened Seqs
  import opened StableSort
  import opened Records

  const RecentCount: nat := 5

  function NewerFirst(a: Transaction, b: Transaction): bool
  {
    AtOrBefore(b.date, a.date)
  }

  lemma NewerFirstIsTotalPreorder()
    ensures TotalPreorder(NewerFirst)
  {
  }

  /** The matching transactions in the order `sort` leaves them. */
  function SortedOfKind(txs: seq<Transaction>, kind: TxType): seq<Transaction>
  {
    Sort(Filter(txs, OfKind(kind)), NewerFirst)
  }

  /** `recentIncome` (kind Income) and `recentExpense` (kind Expense):
      `filter`, then `sort` newest first, then `slice(0, 5)`. */
  function RecentOfKind(txs: seq<Transaction>, kind: TxType): (r: seq<Transaction>)
    ensures |r| == Min(RecentCount, |Filter(txs, OfKind(kind))|)
    ensures forall i :: 0 <= i < |r| ==> r[i].kind == kind && r[i] in txs
    ensures forall i, j :: 0 <= i < j < |r| ==> AtOrBefore(r[j].date, r[i].date)
  {
    var sorted := SortedOfKind(txs, kind);
    SortedOfKindFacts(txs, kind);
    sorted[..Min(RecentCount, |sorted|)]
  }

  lemma SortedOfKindFacts(txs: seq<Transaction>, kind: TxType)
    ensures var sorted := SortedOfKind(txs, kind);
      && |sorted| == |Filter(txs, OfKind(kind))|
      && (forall i :: 0 <= i < |sorted| ==> sorted[i].kind == kind && sorted[i] in txs)
      && (forall i, j :: 0 <= i < j < |sorted| ==> AtOrBefore(sorted[j].date, sorted[i].date))
  {
    var matching := Filter(txs, OfKind(kind));
    var sorted := SortedOfKind(txs, kind);
    NewerFirstIsTotalPreorder();
    SortSorted(matching, NewerFirst);
    forall i | 0 <= i < |sorted| ensures sorted[i].kind == kind && sorted[i] in txs {
      assert sorted[i] in multiset(matching);
    }
  }

  /** The matching transactions that do not make the list. */
  function LeftOut(txs: seq<Transaction>, kind: TxType): seq<Transaction>
  {
    var sorted := SortedOfKind(txs, kind);
    sorted[Min(RecentCount, |sorted|)..]
  }

  /** The list and the left-out transactions together are exactly the
      matching transactions; something is left out only when the list is
      full, and nothing left out is later than the last one kept. */
  lemma LeftOutAreNoLater(txs: seq<Transaction>, kind: TxType)
    ensures multiset(RecentOfKind(txs, kind)) + multiset(LeftOut(txs, kind))
      == multiset(Filter(txs, OfKind(kind)))
    ensures LeftOut(txs, kind) != [] ==> |RecentOfKind(txs, kind)| == RecentCount
    ensures forall i :: 0 <= i < |LeftOut(txs, kind)| ==>
      var r := RecentOfKind(txs, kind);
      forall j :: 0 <= j < |r| ==> AtOrBefore(LeftOut(txs, kind)[i].date, r[j].date)
  {
    var sorted := SortedOfKind(txs, kind);
    var n := Min(RecentCount, |sorted|);
    assert sorted == sorted[..n] + sorted[n..];
    NewerFirstIsTotalPreorder();
    SortSorted(Filter(txs, OfKind(kind)), NewerFirst);
    SortedPrefixComesFirst(sorted, NewerFirst, n);
  }

  /** Transactions on the same date keep their input order: those shown are
      the first of that date among the matching transactions, in order. */
  lemma RecentIsStable(txs: seq<Transaction>, kind: TxType, d: Date)
    ensures Filter(RecentOfKind(txs, kind), OnDate(d)) <= Filter(Filter(txs, OfKind(kind)), OnDate(d))
  {
    var matching := Filter(txs, OfKind(kind));
    var sorted := SortedOfKind(txs, kind);
    var y := Transaction(0, d, kind, "", "", 0, "");
    NewerFirstIsTotalPreorder();
    SameDateIsOneClass(y);
    SortKeepsClassOrder(matching, NewerFirst, y, OnDate(d));
    FilterOfPrefix(sorted, Min(RecentCount, |sorted|), OnDate(d));
  }

  /** The transactions on the date of `y` are exactly those the comparator
      cannot tell apart from `y`. */
  lemma SameDateIsOneClass(y: Transaction)
    ensures forall z :: OnDate(y.date)(z) <==> NewerFirst(z, y) && NewerFirst(y, z)
  {
  }

  function OnDate(d: Date): Transaction -> bool
  {
    (t: Transaction) => t.date == d
  }

  /** Fewer than five matching transactions are all shown. */
  lemma ShortListsAreComplete(txs: seq<Transaction>, kind: TxType)
    requires |Filter(txs, OfKind(kind))| <= RecentCount
    ensures multiset(RecentOfKind(txs, kind)) == multiset(Filter(txs, OfKind(kind)))
  {
    LeftOutAreNoLater(txs, kind);
  }
}
