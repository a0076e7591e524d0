/** The transaction record of `src/data/transactions.ts`, the dashboard's
    `Period`, and the per-type totals that every screen derives from a list
    of transactions. */
module Records {
  import opened Calendar
  import opened Seqs

  datatype Option<T> = None | Some(value: T)

  /** The record's `type` field: 'income' or 'expense'. */
  datatype TxType = Income | Expense

  /** The period selector: 'daily' | 'weekly' | 'monthly' | 'yearly'. */
  datatype Period = Daily | Weekly | Monthly | Yearly

  /** One transaction. Amounts are whole Rupiah and never negative; the
      direction of a transaction is carried by `kind`, not by a sign. Ids are
      assigned by the store and are not assumed unique. */
  datatype Transaction = Transaction(
    id: int,
    date: Date,
    kind: TxType,
    category: string,
    description: string,
    amount: nat,
    paymentMethod: string)

  function AmountOf(t: Transaction): nat
  {
    t.amount
  }

  /** The `t => t.type === kind` filter predicate. */
  function OfKind(kind: TxType): Transaction -> bool
  {
    (t: Transaction) => t.kind == kind
  }

  /** `reduce((sum, t) => sum + t.amount, 0)`. */
  function SumAmounts(s: seq<Transaction>): nat
  {
    Sum(s, AmountOf)
  }

  /** `filter(t => t.type === kind).reduce((sum, t) => sum + t.amount, 0)`. */
  function SumOfKind(s: seq<Transaction>, kind: TxType): nat
  {
    SumAmounts(Filter(s, OfKind(kind)))
  }

  /** Every transaction is income or expense, so the two per-type sums
      together account for every amount exactly once. */
  lemma {:induction false} KindsPartitionSum(s: seq<Transaction>)
    ensures SumOfKind(s, Income) + SumOfKind(s, Expense) == SumAmounts(s)
  {
    if s != [] {
      KindsPartitionSum(s[1..]);
    }
  }

  /** The per-type sums distribute over concatenation. */
  lemma SumOfKindAppend(a: seq<Transaction>, b: seq<Transaction>, kind: TxType)
    ensures SumOfKind(a + b, kind) == SumOfKind(a, kind) + SumOfKind(b, kind)
  {
    FilterAppend(a, b, OfKind(kind));
    SumAppend(Filter(a, OfKind(kind)), Filter(b, OfKind(kind)), AmountOf);
  }

  datatype Totals = Totals(income: nat, expense: nat, balance: int)

  /** Income, expense and balance of a list of transactions. */
  function TotalsOf(s: seq<Transaction>): (r: Totals)
    ensures r.income == SumOfKind(s, Income) && r.expense == SumOfKind(s, Expense)
    ensures r.balance == r.income - r.expense
    ensures r.income + r.expense == SumAmounts(s)
    ensures s == [] ==> r == Totals(0, 0, 0)
  {
    KindsPartitionSum(s);
    var income := SumOfKind(s, Income);
    var expense := SumOfKind(s, Expense);
    Totals(income, expense, income - expense)
  }
}
