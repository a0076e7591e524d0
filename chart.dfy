/** The dashboard charts (src/components/Dashboard/Chart.tsx): the
    income-versus-expense trend, bucketed by hour, calendar day, day of the
    month or month, and the expense-by-category ranking.

    Both are computed by a loop that updates a dictionary in place and then
    sorts its entries. The methods `TrendData` and `CategoryData` keep that
    form, with the dictionary as a `map` and the insertion order of its keys
    (the order `Object.entries` reports them in) as a `seq`. Each is proved
    equal to a specification function built one transaction at a time
    (`Buckets`, `CategoryGroups`), and the lemmas below state what those
    functions guarantee. */
module Chart {
  import opened Calendar
  import opened Seqs
  import opened StableSort
  import opened Strings
  import opened Records

  const WeekdayNames: seq<string> := ["Sun", "Mon", "Tue", "Wed", "Thu", "Fri", "Sat"]
  const MonthNames: seq<string> :=
    ["Jan", "Feb", "Mar", "Apr", "May", "Jun", "Jul", "Aug", "Sep", "Oct", "Nov", "Dec"]

  // ---------------------------------------------------------------------------
  // Trend buckets
  // ---------------------------------------------------------------------------

  /** The dictionary key, axis label and sort key a transaction is filed under. */
  datatype Slot = Slot(key: string, axisLabel: string, sortKey: string)

  /** The slot of a date: the key is the unpadded hour (daily), the
      unpadded year-month-date (weekly), day of the month (monthly) or month
      index (yearly); the sort key pads it to two digits except in the
      weekly chart; the label is the padded hour with ":00", the weekday
      name, the day or the month name. */
  function SlotOf(period: Period, d: Date): (r: Slot)
    ensures period == Weekly ==> r.sortKey == r.key && r.axisLabel == WeekdayNames[DayOfWeek(d)]
    ensures period != Weekly ==> r.sortKey == PadStart2(r.key) && |r.sortKey| == 2
    ensures period == Daily ==> r.axisLabel == r.sortKey + ":00"
    ensures period == Monthly ==> r.axisLabel == r.key
    ensures period == Yearly ==> r.axisLabel == MonthNames[d.month]
  {
    match period
    case Daily =>
      var key := NatToString(d.hour);
      Slot(key, PadStart2(NatToString(d.hour)) + ":00", PadStart2(key))
    case Weekly =>
      var key := WeeklyKey(d.year, d.month, d.day);
      Slot(key, WeekdayNames[DayOfWeek(d)], key)
    case Monthly =>
      var key := NatToString(d.day);
      Slot(key, NatToString(d.day), PadStart2(key))
    case Yearly =>
      var key := NatToString(d.month);
      Slot(key, MonthNames[d.month], PadStart2(key))
  }

  /** The calendar field the daily, monthly and yearly keys are made of. */
  function SlotIndex(period: Period, d: Date): (n: nat)
    requires period != Weekly
    ensures n < 32
  {
    match period
    case Daily => d.hour
    case Monthly => d.day
    case Yearly => d.month
  }

  /** Whether two dates share a bucket: same hour, same calendar day, same
      day of the month or same month, by period. */
  predicate SameSlot(period: Period, d: Date, e: Date)
  {
    match period
    case Daily => d.hour == e.hour
    case Weekly => DayOf(d) == DayOf(e)
    case Monthly => d.day == e.day
    case Yearly => d.month == e.month
  }

  /** The key identifies the bucket: two dates get the same key exactly when
      they fall in the same hour, day, day of the month or month. */
  lemma SlotKeyIdentifies(period: Period, d: Date, e: Date)
    ensures SlotOf(period, d).key == SlotOf(period, e).key <==> SameSlot(period, d, e)
  {
    match period
    case Daily =>
      if NatToString(d.hour) == NatToString(e.hour) { NatToStringInjective(d.hour, e.hour); }
    case Weekly =>
      if SlotOf(period, d).key == SlotOf(period, e).key {
        WeeklyKeyInjective(d, e);
      }
    case Monthly =>
      if NatToString(d.day) == NatToString(e.day) { NatToStringInjective(d.day, e.day); }
    case Yearly =>
      if NatToString(d.month) == NatToString(e.month) { NatToStringInjective(d.month, e.month); }
  }

  lemma {:induction false} NatToStringInjective(a: nat, b: nat)
    requires NatToString(a) == NatToString(b)
    ensures a == b
  {
    if a >= 10 && b >= 10 {
      var sa, sb := NatToString(a), NatToString(b);
      assert sa[..|sa| - 1] == NatToString(a / 10);
      assert sb[..|sb| - 1] == NatToString(b / 10);
      NatToStringInjective(a / 10, b / 10);
    }
  }

  /** The position of the first '-' in `s`, or `|s|` when there is none. */
  function DashIndex(s: string): (i: nat)
    ensures i <= |s|
  {
    if s == [] || s[0] == '-' then 0 else 1 + DashIndex(s[1..])
  }

  lemma {:induction false} DashIndexAfterNumeral(s: string, x: string)
    requires forall i :: 0 <= i < |s| ==> '0' <= s[i] <= '9'
    ensures DashIndex(s + "-" + x) == |s|
  {
    if s != [] {
      assert (s + "-" + x)[1..] == s[1..] + "-" + x;
      DashIndexAfterNumeral(s[1..], x);
    }
  }

  /** A decimal numeral followed by '-' can be split off at its first '-'. */
  lemma SplitAtDash(a: nat, b: nat, x: string, y: string)
    requires NatToString(a) + "-" + x == NatToString(b) + "-" + y
    ensures a == b && x == y
  {
    var sa, sb := NatToString(a), NatToString(b);
    DashIndexAfterNumeral(sa, x);
    DashIndexAfterNumeral(sb, y);
    assert |sa| == |sb|;
    assert sa == (sa + "-" + x)[..|sa|];
    assert sb == (sb + "-" + y)[..|sb|];
    NatToStringInjective(a, b);
    assert x == (sa + "-" + x)[|sa| + 1..];
    assert y == (sb + "-" + y)[|sb| + 1..];
  }

  /** The same for a numeral that may carry a minus sign: the sign shows as
      a '-' in front, where no numeral starts. */
  lemma SplitIntAtDash(a: int, b: int, x: string, y: string)
    requires IntToString(a) + "-" + x == IntToString(b) + "-" + y
    ensures a == b && x == y
  {
    SignLeadsKey(a, x);
    SignLeadsKey(b, y);
    if a < 0 {
      SplitAtDash(-a, -b, x, y);
    } else {
      SplitAtDash(a, b, x, y);
    }
  }

  lemma SignLeadsKey(a: int, x: string)
    ensures DashIndex(IntToString(a) + "-" + x) == 0 <==> a < 0
    ensures a < 0 ==> (IntToString(a) + "-" + x)[1..] == NatToString(-a) + "-" + x
    ensures a >= 0 ==> IntToString(a) + "-" + x == NatToString(a) + "-" + x
  {
    if a < 0 {
      assert IntToString(a) + "-" + x == "-" + (NatToString(-a) + "-" + x);
    } else {
      DashIndexAfterNumeral(NatToString(a), x);
    }
  }

  /** The weekly key `${year}-${month}-${date}`. */
  function WeeklyKey(year: int, month: nat, day: nat): string
  {
    IntToString(year) + "-" + (NatToString(month) + "-" + NatToString(day))
  }

  /** The weekly key (the key of `SlotOf(Weekly, d)`) tells calendar dates
      apart. */
  lemma WeeklyKeyInjective(d: Date, e: Date)
    requires WeeklyKey(d.year, d.month, d.day) == WeeklyKey(e.year, e.month, e.day)
    ensures DayOf(d) == DayOf(e)
  {
    SplitIntAtDash(d.year, e.year, NatToString(d.month) + "-" + NatToString(d.day),
      NatToString(e.month) + "-" + NatToString(e.day));
    SplitAtDash(d.month, e.month, NatToString(d.day), NatToString(e.day));
    NatToStringInjective(d.day, e.day);
  }

  /** For daily, monthly and yearly the zero-padded sort keys order buckets
      by hour, day of the month and month index. */
  lemma SortKeyOrderIsNumeric(period: Period, d: Date, e: Date)
    requires period != Weekly
    ensures StrLe(SlotOf(period, d).sortKey, SlotOf(period, e).sortKey)
        <==> SlotIndex(period, d) <= SlotIndex(period, e)
  {
    PaddedOrderIsNumeric(SlotIndex(period, d), SlotIndex(period, e));
  }

  /** The weekly sort key is the unpadded `${year}-${month}-${date}`, so its
      string order is not chronological: 10 January sorts before 2 January. */
  lemma WeeklySortKeyNotChronological()
    ensures Before(Instant(2025, 0, 2, 12), Instant(2025, 0, 10, 12))
    ensures SlotOf(Weekly, Instant(2025, 0, 2, 12)).sortKey == "2025-0-2"
    ensures SlotOf(Weekly, Instant(2025, 0, 10, 12)).sortKey == "2025-0-10"
    ensures StrLe("2025-0-10", "2025-0-2") && !StrLe("2025-0-2", "2025-0-10")
  {
    WeeklyKeyOfTwentyTwentyFive(2);
    WeeklyKeyOfTwentyTwentyFive(10);
    assert "2025-0-10" == "2025-0-" + "10" && "2025-0-2" == "2025-0-" + "2";
    StrLeCommonPrefix("2025-0-", "10", "2");
    StrLeCommonPrefix("2025-0-", "2", "10");
    assert "10"[1..] == "0";
  }

  lemma WeeklyKeyOfTwentyTwentyFive(day: nat)
    requires day == 2 || day == 10
    ensures WeeklyKey(2025, 0, day) == "2025-0-" + NatToString(day)
    ensures NatToString(day) == if day == 2 then "2" else "10"
  {
    assert NatToString(2025) == "2025" by {
      assert NatToString(2) == "2";
      assert NatToString(20) == "20";
      assert NatToString(202) == "202";
    }
    assert NatToString(0) == "0";
    assert NatToString(10) == "10";
  }

  /** One entry of `groupedData`: its key, the label and sort key set by the
      transaction that created it, and the running sums. */
  datatype Bucket = Bucket(key: string, axisLabel: string, sortKey: string, income: nat, expense: nat)

  function SlotOfBucket(b: Bucket): Slot
  {
    Slot(b.key, b.axisLabel, b.sortKey)
  }

  function BucketIncome(b: Bucket): nat { b.income }

  function BucketExpense(b: Bucket): nat { b.expense }

  /** Adds a transaction to the income side if its type is income and to the
      expense side otherwise. */
  function Credit(b: Bucket, t: Transaction): Bucket
  {
    if t.kind == Income then b.(income := b.income + t.amount)
    else b.(expense := b.expense + t.amount)
  }

  function KeyOf(b: Bucket): string { b.key }

  /** One step of the `forEach`: credit the bucket of slot `s`, creating it
      (with the slot's label and sort key) when its key is new. */
  function AddTo(bs: seq<Bucket>, s: Slot, t: Transaction): seq<Bucket>
  {
    var i := IndexOf(bs, KeyOf, s.key);
    if i < |bs| then bs[i := Credit(bs[i], t)]
    else bs + [Credit(Bucket(s.key, s.axisLabel, s.sortKey, 0, 0), t)]
  }

  /** The buckets of `txs` when each transaction `t` is filed under `slot(t)`,
      in key-insertion order. */
  function Group(txs: seq<Transaction>, slot: Transaction -> Slot): (r: seq<Bucket>)
    ensures |r| <= |txs|
  {
    if txs == [] then []
    else AddTo(Group(txs[..|txs| - 1], slot), slot(txs[|txs| - 1]), txs[|txs| - 1])
  }

  function SlotFn(period: Period): Transaction -> Slot
  {
    (t: Transaction) => SlotOf(period, t.date)
  }

  /** `groupedData` after the `forEach`, in key-insertion order. */
  function Buckets(txs: seq<Transaction>, period: Period): seq<Bucket>
  {
    Group(txs, SlotFn(period))
  }

  /** The transactions filed under `key`. */
  function InSlot(slot: Transaction -> Slot, key: string): Transaction -> bool
  {
    (t: Transaction) => slot(t).key == key
  }

  ghost predicate DistinctKeys(bs: seq<Bucket>)
  {
    forall i, j :: 0 <= i < j < |bs| ==> bs[i].key != bs[j].key
  }

  /** What one step does: earlier buckets keep their slot, the slot's key is
      present afterwards, and a bucket is appended exactly when the key was
      new. */
  lemma AddToShape(bs: seq<Bucket>, s: Slot, t: Transaction)
    ensures var r := AddTo(bs, s, t);
      && (IndexOf(bs, KeyOf, s.key) < |bs| ==> |r| == |bs|)
      && (IndexOf(bs, KeyOf, s.key) == |bs| ==> |r| == |bs| + 1 && SlotOfBucket(r[|bs|]) == s)
      && (forall j :: 0 <= j < |bs| ==> SlotOfBucket(r[j]) == SlotOfBucket(bs[j]))
      && IndexOf(r, KeyOf, s.key) < |r|
  {
    var r := AddTo(bs, s, t);
    var i := IndexOf(bs, KeyOf, s.key);
    if i < |bs| {
      assert r[i].key == s.key;
    } else {
      assert r[|bs|].key == s.key;
    }
  }

  /** One bucket per key. */
  lemma {:induction false} GroupKeysDistinct(txs: seq<Transaction>, slot: Transaction -> Slot)
    ensures DistinctKeys(Group(txs, slot))
  {
    if txs != [] {
      var pre, t := txs[..|txs| - 1], txs[|txs| - 1];
      GroupKeysDistinct(pre, slot);
      AddToShape(Group(pre, slot), slot(t), t);
    }
  }

  /** Every transaction has a bucket for its key. */
  lemma {:induction false} GroupCoversEveryKey(txs: seq<Transaction>, slot: Transaction -> Slot)
    ensures forall i :: 0 <= i < |txs| ==> IndexOf(Group(txs, slot), KeyOf, slot(txs[i]).key) < |Group(txs, slot)|
  {
    if txs != [] {
      var pre, t := txs[..|txs| - 1], txs[|txs| - 1];
      var before, after := Group(pre, slot), Group(txs, slot);
      GroupCoversEveryKey(pre, slot);
      AddToShape(before, slot(t), t);
      forall i | 0 <= i < |pre|
        ensures IndexOf(after, KeyOf, slot(txs[i]).key) < |after|
      {
        assert txs[i] == pre[i];
        var j := IndexOf(before, KeyOf, slot(pre[i]).key);
        assert after[j].key == slot(txs[i]).key;
      }
    }
  }

  /** Each bucket was created by the first transaction with its key, whose
      label and sort key it keeps. */
  lemma {:induction false} GroupBucketCreatedByFirst(txs: seq<Transaction>, slot: Transaction -> Slot, j: nat)
    requires j < |Group(txs, slot)|
    ensures exists i :: (0 <= i < |txs| && SlotOfBucket(Group(txs, slot)[j]) == slot(txs[i])
      && forall h :: 0 <= h < i ==> slot(txs[h]).key != Group(txs, slot)[j].key)
  {
    var pre, t := txs[..|txs| - 1], txs[|txs| - 1];
    var before, after := Group(pre, slot), Group(txs, slot);
    AddToShape(before, slot(t), t);
    if j < |before| {
      GroupBucketCreatedByFirst(pre, slot, j);
      var i :| 0 <= i < |pre| && SlotOfBucket(before[j]) == slot(pre[i])
        && (forall h :: 0 <= h < i ==> slot(pre[h]).key != before[j].key);
      assert pre[i] == txs[i];
      assert forall h :: 0 <= h < i ==> txs[h] == pre[h];
    } else {
      GroupCoversEveryKey(pre, slot);
      assert forall h :: 0 <= h < |pre| ==> txs[h] == pre[h];
      assert SlotOfBucket(after[j]) == slot(txs[|txs| - 1]);
    }
  }

  lemma SingleSumOfKind(t: Transaction, kind: TxType)
    ensures SumOfKind([t], kind) == if t.kind == kind then t.amount else 0
  {
    FilterSingleton(t, OfKind(kind));
    SumSingleton(t, AmountOf);
  }

  /** The share of `t` in a per-type sum. */
  function Share(t: Transaction, kind: TxType): nat
  {
    if t.kind == kind then t.amount else 0
  }

  lemma SumOfKindSnoc(pre: seq<Transaction>, t: Transaction, kind: TxType)
    ensures SumOfKind(pre + [t], kind) == SumOfKind(pre, kind) + Share(t, kind)
  {
    SumOfKindAppend(pre, [t], kind);
    SingleSumOfKind(t, kind);
  }

  lemma FilteredSumOfKindSnoc(pre: seq<Transaction>, t: Transaction, p: Transaction -> bool, kind: TxType)
    ensures SumOfKind(Filter(pre + [t], p), kind)
      == SumOfKind(Filter(pre, p), kind) + (if p(t) then Share(t, kind) else 0)
  {
    FilterAppend(pre, [t], p);
    FilterSingleton(t, p);
    SumOfKindAppend(Filter(pre, p), Filter([t], p), kind);
    SingleSumOfKind(t, kind);
  }

  /** What one step does to a single bucket, when keys are distinct. */
  lemma AddToBucket(bs: seq<Bucket>, s: Slot, t: Transaction, j: nat)
    requires DistinctKeys(bs)
    requires j < |AddTo(bs, s, t)|
    ensures j < |bs| ==> AddTo(bs, s, t)[j] == if bs[j].key == s.key then Credit(bs[j], t) else bs[j]
    ensures j >= |bs| ==> AddTo(bs, s, t)[j] == Credit(Bucket(s.key, s.axisLabel, s.sortKey, 0, 0), t)
  {
  }

  /** What one step does to the sums over all buckets. */
  lemma AddToSums(bs: seq<Bucket>, s: Slot, t: Transaction)
    ensures Sum(AddTo(bs, s, t), BucketIncome) == Sum(bs, BucketIncome) + Share(t, Income)
    ensures Sum(AddTo(bs, s, t), BucketExpense) == Sum(bs, BucketExpense) + Share(t, Expense)
  {
    var i := IndexOf(bs, KeyOf, s.key);
    if i < |bs| {
      SumUpdate(bs, i, Credit(bs[i], t), BucketIncome);
      SumUpdate(bs, i, Credit(bs[i], t), BucketExpense);
    } else {
      var b := Credit(Bucket(s.key, s.axisLabel, s.sortKey, 0, 0), t);
      SumAppend(bs, [b], BucketIncome);
      SumAppend(bs, [b], BucketExpense);
      SumSingleton(b, BucketIncome);
      SumSingleton(b, BucketExpense);
    }
  }

  /** The per-key sums after a step, given them before it. */
  predicate HoldsSums(b: Bucket, txs: seq<Transaction>, slot: Transaction -> Slot)
  {
    && b.income == SumOfKind(Filter(txs, InSlot(slot, b.key)), Income)
    && b.expense == SumOfKind(Filter(txs, InSlot(slot, b.key)), Expense)
  }

  lemma BucketSumsStep(pre: seq<Transaction>, t: Transaction, slot: Transaction -> Slot,
                       before: seq<Bucket>, j: nat)
    requires DistinctKeys(before)
    requires forall i :: 0 <= i < |pre| ==> IndexOf(before, KeyOf, slot(pre[i]).key) < |before|
    requires j < |before| ==> HoldsSums(before[j], pre, slot)
    requires j < |AddTo(before, slot(t), t)|
    ensures HoldsSums(AddTo(before, slot(t), t)[j], pre + [t], slot)
  {
    var after := AddTo(before, slot(t), t);
    AddToShape(before, slot(t), t);
    AddToBucket(before, slot(t), t, j);
    var p := InSlot(slot, after[j].key);
    FilteredSumOfKindSnoc(pre, t, p, Income);
    FilteredSumOfKindSnoc(pre, t, p, Expense);
    if j >= |before| {
      FilterNone(pre, p);
    }
  }

  /** Each bucket holds exactly the amounts of the transactions with its key,
      income on the income side and expense on the expense side. */
  lemma {:induction false} GroupBucketSums(txs: seq<Transaction>, slot: Transaction -> Slot, j: nat)
    requires j < |Group(txs, slot)|
    ensures var b := Group(txs, slot)[j];
      && b.income == SumOfKind(Filter(txs, InSlot(slot, b.key)), Income)
      && b.expense == SumOfKind(Filter(txs, InSlot(slot, b.key)), Expense)
  {
    var pre, t := txs[..|txs| - 1], txs[|txs| - 1];
    var before := Group(pre, slot);
    assert txs == pre + [t];
    GroupKeysDistinct(pre, slot);
    GroupCoversEveryKey(pre, slot);
    if j < |before| {
      GroupBucketSums(pre, slot, j);
    }
    BucketSumsStep(pre, t, slot, before, j);
  }

  /** A per-type sum, split before the last transaction. */
  lemma SumOfKindLast(txs: seq<Transaction>, kind: TxType)
    requires txs != []
    ensures SumOfKind(txs, kind) == SumOfKind(txs[..|txs| - 1], kind) + Share(txs[|txs| - 1], kind)
  {
    var pre, t := txs[..|txs| - 1], txs[|txs| - 1];
    assert txs == pre + [t];
    SumOfKindSnoc(pre, t, kind);
  }

  /** Every amount lands in exactly one bucket: bucket incomes add up to the
      total income and bucket expenses to the total expense. */
  lemma {:induction false} GroupConservesTotals(txs: seq<Transaction>, slot: Transaction -> Slot)
    ensures Sum(Group(txs, slot), BucketIncome) == SumOfKind(txs, Income)
    ensures Sum(Group(txs, slot), BucketExpense) == SumOfKind(txs, Expense)
  {
    if txs != [] {
      var pre, t := txs[..|txs| - 1], txs[|txs| - 1];
      GroupConservesTotals(pre, slot);
      SumOfKindLast(txs, Income);
      SumOfKindLast(txs, Expense);
      AddToSums(Group(pre, slot), slot(t), t);
    }
  }

  /** The trend chart sorts entries by `a.sortKey.localeCompare(b.sortKey)`. */
  function BySortKey(a: Bucket, b: Bucket): bool
  {
    StrLe(a.sortKey, b.sortKey)
  }

  lemma BySortKeyIsTotalPreorder()
    ensures TotalPreorder(BySortKey)
  {
    forall a: Bucket, b: Bucket ensures BySortKey(a, b) || BySortKey(b, a) {
      StrLeTotal(a.sortKey, b.sortKey);
    }
    forall a: Bucket, b: Bucket, c: Bucket | BySortKey(a, b) && BySortKey(b, c)
      ensures BySortKey(a, c)
    {
      StrLeTransitive(a.sortKey, b.sortKey, c.sortKey);
    }
  }

  /** One point of the trend chart: `{ month: label, income, expense }`. */
  datatype TrendRow = TrendRow(month: string, income: nat, expense: nat)

  function RowOf(b: Bucket): TrendRow
  {
    TrendRow(b.axisLabel, b.income, b.expense)
  }

  function Rows(bs: seq<Bucket>): seq<TrendRow>
  {
    seq(|bs|, j requires 0 <= j < |bs| => RowOf(bs[j]))
  }

  function RowIncome(r: TrendRow): nat { r.income }

  function RowExpense(r: TrendRow): nat { r.expense }

  lemma {:induction false} RowsKeepSums(bs: seq<Bucket>)
    ensures Sum(Rows(bs), RowIncome) == Sum(bs, BucketIncome)
    ensures Sum(Rows(bs), RowExpense) == Sum(bs, BucketExpense)
  {
    if bs != [] {
      assert Rows(bs)[1..] == Rows(bs[1..]);
      RowsKeepSums(bs[1..]);
    }
  }

  /** The buckets in the order the chart shows them. */
  function SortedBuckets(txs: seq<Transaction>, period: Period): seq<Bucket>
  {
    Sort(Buckets(txs, period), BySortKey)
  }

  /** `trendData`: the buckets sorted by sort key, as chart rows. */
  function TrendRows(txs: seq<Transaction>, period: Period): seq<TrendRow>
  {
    Rows(SortedBuckets(txs, period))
  }

  /** The chart shows every amount once: its rows add up to the income and
      the expense totals of `stats`. */
  lemma TrendRowsConserveTotals(txs: seq<Transaction>, period: Period)
    ensures Sum(TrendRows(txs, period), RowIncome) == TotalsOf(txs).income
    ensures Sum(TrendRows(txs, period), RowExpense) == TotalsOf(txs).expense
  {
    GroupConservesTotals(txs, SlotFn(period));
    SortPreservesSum(Buckets(txs, period), BySortKey, BucketIncome);
    SortPreservesSum(Buckets(txs, period), BySortKey, BucketExpense);
    RowsKeepSums(SortedBuckets(txs, period));
  }

  /** The rows come in ascending sort-key order, one per key. */
  lemma TrendRowsSorted(txs: seq<Transaction>, period: Period)
    ensures var sorted := SortedBuckets(txs, period);
      forall i, j :: 0 <= i < j < |sorted| ==> StrLe(sorted[i].sortKey, sorted[j].sortKey)
    ensures DistinctKeys(SortedBuckets(txs, period))
  {
    BySortKeyIsTotalPreorder();
    SortSorted(Buckets(txs, period), BySortKey);
    GroupKeysDistinct(txs, SlotFn(period));
    var bs, sorted := Buckets(txs, period), SortedBuckets(txs, period);
    forall i, j | 0 <= i < j < |sorted| ensures sorted[i].key != sorted[j].key {
      PermutationKeepsDistinctKeys(bs, sorted, i, j);
    }
  }

  lemma PermutationKeepsDistinctKeys(bs: seq<Bucket>, ps: seq<Bucket>, i: nat, j: nat)
    requires DistinctKeys(bs) && multiset(ps) == multiset(bs)
    requires i < j < |ps|
    ensures ps[i].key != ps[j].key
  {
    if ps[i].key == ps[j].key {
      assert ps[i] in multiset(bs) && ps[j] in multiset(bs);
      var a :| 0 <= a < |bs| && bs[a] == ps[i];
      var b :| 0 <= b < |bs| && bs[b] == ps[j];
      assert a == b;
      OccursTwice(ps, i, j);
      BucketOccursOnce(bs, a);
    }
  }

  lemma BucketOccursOnce(bs: seq<Bucket>, a: nat)
    requires DistinctKeys(bs) && a < |bs|
    ensures multiset(bs)[bs[a]] == 1
  {
    assert bs == bs[..a] + [bs[a]] + bs[a + 1..];
    assert bs[a] !in bs[..a];
    assert bs[a] !in bs[a + 1..];
  }

  /** Every sorted bucket was created by some transaction's slot. */
  lemma SortedBucketOrigin(txs: seq<Transaction>, slot: Transaction -> Slot, le: (Bucket, Bucket) -> bool, i: nat)
    requires i < |Sort(Group(txs, slot), le)|
    ensures exists a :: 0 <= a < |txs| && SlotOfBucket(Sort(Group(txs, slot), le)[i]) == slot(txs[a])
  {
    var bs, sorted := Group(txs, slot), Sort(Group(txs, slot), le);
    assert sorted[i] in multiset(bs);
    var x :| 0 <= x < |bs| && bs[x] == sorted[i];
    GroupBucketCreatedByFirst(txs, slot, x);
  }

  /** Of two different daily, monthly or yearly slots, the one with the
      smaller sort key has the smaller hour, day or month. */
  lemma SlotsInOrder(period: Period, d: Date, e: Date)
    requires period != Weekly
    requires StrLe(SlotOf(period, d).sortKey, SlotOf(period, e).sortKey)
    requires SlotOf(period, d).key != SlotOf(period, e).key
    ensures SlotIndex(period, d) < SlotIndex(period, e)
  {
    SortKeyOrderIsNumeric(period, d, e);
    SlotKeyIdentifies(period, d, e);
  }

  /** For daily, monthly and yearly the rows come in increasing hour, day of
      the month or month: the zero padding makes string order numeric. */
  lemma TrendRowsNumericOrder(txs: seq<Transaction>, period: Period, i: nat, j: nat)
    requires period != Weekly
    requires i < j < |SortedBuckets(txs, period)|
    ensures exists a, b :: (0 <= a < |txs| && 0 <= b < |txs|
      && SlotOfBucket(SortedBuckets(txs, period)[i]) == SlotOf(period, txs[a].date)
      && SlotOfBucket(SortedBuckets(txs, period)[j]) == SlotOf(period, txs[b].date)
      && SlotIndex(period, txs[a].date) < SlotIndex(period, txs[b].date))
  {
    var sorted := SortedBuckets(txs, period);
    TrendRowsSorted(txs, period);
    SortedBucketOrigin(txs, SlotFn(period), BySortKey, i);
    SortedBucketOrigin(txs, SlotFn(period), BySortKey, j);
    var a :| 0 <= a < |txs| && SlotOfBucket(sorted[i]) == SlotFn(period)(txs[a]);
    var b :| 0 <= b < |txs| && SlotOfBucket(sorted[j]) == SlotFn(period)(txs[b]);
    SlotsInOrder(period, txs[a].date, txs[b].date);
  }

  /** The entries of a dictionary, listed in the insertion order of its keys. */
  function Entries(grouped: map<string, Bucket>, order: seq<string>): seq<Bucket>
    requires forall k :: k in order ==> k in grouped
  {
    seq(|order|, j requires 0 <= j < |order| => grouped[order[j]])
  }

  /** The dictionary invariant of `TrendData`: its keys are the listed ones,
      and each entry is stored under its own key. */
  ghost predicate KeyedBy(grouped: map<string, Bucket>, order: seq<string>)
  {
    && (forall k :: k in grouped <==> k in order)
    && (forall j :: 0 <= j < |order| ==> grouped[order[j]].key == order[j])
  }

  /** Crediting an existing entry in place is the step of `AddTo` that finds it. */
  lemma CreditEntry(grouped: map<string, Bucket>, order: seq<string>, s: Slot, t: Transaction)
    requires KeyedBy(grouped, order) && DistinctKeys(Entries(grouped, order))
    requires s.key in grouped
    ensures KeyedBy(grouped[s.key := Credit(grouped[s.key], t)], order)
    ensures Entries(grouped[s.key := Credit(grouped[s.key], t)], order) == AddTo(Entries(grouped, order), s, t)
  {
    var es := Entries(grouped, order);
    var j0 :| 0 <= j0 < |order| && order[j0] == s.key;
    assert es[j0].key == s.key;
    var i := IndexOf(es, KeyOf, s.key);
    assert order[i] == s.key;
    var updated := grouped[s.key := Credit(grouped[s.key], t)];
    forall j | 0 <= j < |order| ensures Entries(updated, order)[j] == es[i := Credit(es[i], t)][j] {
      if j != i {
        assert es[j].key != es[i].key;
      }
    }
  }

  /** Creating and crediting a new entry is the step of `AddTo` that appends. */
  lemma NewEntry(grouped: map<string, Bucket>, order: seq<string>, s: Slot, t: Transaction)
    requires KeyedBy(grouped, order)
    requires s.key !in grouped
    ensures var b := Credit(Bucket(s.key, s.axisLabel, s.sortKey, 0, 0), t);
      && KeyedBy(grouped[s.key := b], order + [s.key])
      && Entries(grouped[s.key := b], order + [s.key]) == AddTo(Entries(grouped, order), s, t)
  {
    var es := Entries(grouped, order);
    assert forall j :: 0 <= j < |es| ==> es[j].key != s.key;
    assert IndexOf(es, KeyOf, s.key) == |es|;
  }

  /** Filing one more transaction is one step of `AddTo`. */
  lemma BucketsSnoc(txs: seq<Transaction>, i: nat, period: Period)
    requires i < |txs|
    ensures Buckets(txs[..i + 1], period) == AddTo(Buckets(txs[..i], period), SlotFn(period)(txs[i]), txs[i])
  {
    assert txs[..i + 1][..i] == txs[..i];
  }

  /** One pass of the `forEach`: create the bucket of slot `s` if its key
      is new, then add the transaction's amount to it. On the entries this is
      exactly `AddTo`. */
  method FileTransaction(grouped: map<string, Bucket>, order: seq<string>, s: Slot, t: Transaction)
    returns (grouped': map<string, Bucket>, order': seq<string>)
    requires KeyedBy(grouped, order) && DistinctKeys(Entries(grouped, order))
    ensures KeyedBy(grouped', order')
    ensures Entries(grouped', order') == AddTo(Entries(grouped, order), s, t)
  {
    grouped', order' := grouped, order;
    if s.key !in grouped' {
      NewEntry(grouped, order, s, t);
      grouped' := grouped'[s.key := Bucket(s.key, s.axisLabel, s.sortKey, 0, 0)];
      order' := order' + [s.key];
    } else {
      CreditEntry(grouped, order, s, t);
    }
    grouped' := grouped'[s.key := Credit(grouped'[s.key], t)];
  }

  /** `trendData`: file every transaction in the dictionary, then sort the
      entries by sort key and turn them into chart rows. */
  method TrendData(txs: seq<Transaction>, period: Period) returns (rows: seq<TrendRow>)
    ensures rows == TrendRows(txs, period)
  {
    var grouped: map<string, Bucket> := map[];
    var order: seq<string> := [];
    for i := 0 to |txs|
      invariant KeyedBy(grouped, order)
      invariant Entries(grouped, order) == Buckets(txs[..i], period)
    {
      BucketsSnoc(txs, i, period);
      GroupKeysDistinct(txs[..i], SlotFn(period));
      grouped, order := FileTransaction(grouped, order, SlotFn(period)(txs[i]), txs[i]);
    }
    assert txs[..|txs|] == txs;
    rows := Rows(Sort(Entries(grouped, order), BySortKey));
  }

  // ---------------------------------------------------------------------------
  // Expense by category
  // ---------------------------------------------------------------------------

  /** One entry of `categoryData`: `{ name, value }`. */
  datatype CategoryTotal = CategoryTotal(name: string, value: nat)

  function ValueOf(c: CategoryTotal): nat { c.value }

  function NameOf(c: CategoryTotal): string { c.name }

  /** One step of the `forEach`: `categories[c] = (categories[c] || 0) + amount`. */
  function AddExpense(cs: seq<CategoryTotal>, t: Transaction): seq<CategoryTotal>
  {
    var i := IndexOf(cs, NameOf, t.category);
    if i < |cs| then cs[i := CategoryTotal(t.category, cs[i].value + t.amount)]
    else cs + [CategoryTotal(t.category, t.amount)]
  }

  /** The per-category totals of `expenses`, in first-occurrence order. */
  function GroupByCategory(expenses: seq<Transaction>): (r: seq<CategoryTotal>)
    ensures |r| <= |expenses|
  {
    if expenses == [] then []
    else AddExpense(GroupByCategory(expenses[..|expenses| - 1]), expenses[|expenses| - 1])
  }

  function Expenses(txs: seq<Transaction>): seq<Transaction>
  {
    Filter(txs, OfKind(Expense))
  }

  /** The dictionary `categories` after the `forEach`. */
  function CategoryGroups(txs: seq<Transaction>): seq<CategoryTotal>
  {
    GroupByCategory(Expenses(txs))
  }

  /** `sort((a, b) => b.value - a.value)`: larger values first. */
  function ByValueDesc(a: CategoryTotal, b: CategoryTotal): bool
  {
    a.value >= b.value
  }

  /** `categoryData`. */
  function CategoryRanking(txs: seq<Transaction>): seq<CategoryTotal>
  {
    Sort(CategoryGroups(txs), ByValueDesc)
  }

  function InCategory(name: string): Transaction -> bool
  {
    (t: Transaction) => t.category == name
  }

  ghost predicate DistinctNames(cs: seq<CategoryTotal>)
  {
    forall i, j :: 0 <= i < j < |cs| ==> cs[i].name != cs[j].name
  }

  lemma AddExpenseShape(cs: seq<CategoryTotal>, t: Transaction)
    ensures var r := AddExpense(cs, t);
      && (IndexOf(cs, NameOf, t.category) < |cs| ==> |r| == |cs|)
      && (IndexOf(cs, NameOf, t.category) == |cs| ==> |r| == |cs| + 1 && r[|cs|] == CategoryTotal(t.category, t.amount))
      && (forall j :: 0 <= j < |cs| ==> r[j].name == cs[j].name)
      && IndexOf(r, NameOf, t.category) < |r|
  {
    var r := AddExpense(cs, t);
    var i := IndexOf(cs, NameOf, t.category);
    if i < |cs| {
      assert r[i].name == t.category;
    } else {
      assert r[|cs|].name == t.category;
    }
  }

  lemma AddExpenseEntry(cs: seq<CategoryTotal>, t: Transaction, j: nat)
    requires DistinctNames(cs)
    requires j < |AddExpense(cs, t)|
    ensures j < |cs| && cs[j].name == t.category ==>
      AddExpense(cs, t)[j] == CategoryTotal(t.category, cs[j].value + t.amount)
    ensures j < |cs| && cs[j].name != t.category ==> AddExpense(cs, t)[j] == cs[j]
    ensures j >= |cs| ==> AddExpense(cs, t)[j] == CategoryTotal(t.category, t.amount)
  {
  }

  /** One entry per category. */
  lemma {:induction false} GroupNamesDistinct(expenses: seq<Transaction>)
    ensures DistinctNames(GroupByCategory(expenses))
  {
    if expenses != [] {
      var pre, t := expenses[..|expenses| - 1], expenses[|expenses| - 1];
      GroupNamesDistinct(pre);
      AddExpenseShape(GroupByCategory(pre), t);
    }
  }

  /** Every category that occurs has an entry. */
  lemma {:induction false} GroupCoversEveryCategory(expenses: seq<Transaction>)
    ensures forall i :: 0 <= i < |expenses| ==>
      IndexOf(GroupByCategory(expenses), NameOf, expenses[i].category) < |GroupByCategory(expenses)|
  {
    if expenses != [] {
      var pre, t := expenses[..|expenses| - 1], expenses[|expenses| - 1];
      var before, after := GroupByCategory(pre), GroupByCategory(expenses);
      GroupCoversEveryCategory(pre);
      AddExpenseShape(before, t);
      forall i | 0 <= i < |pre|
        ensures IndexOf(after, NameOf, expenses[i].category) < |after|
      {
        assert expenses[i] == pre[i];
        var j := IndexOf(before, NameOf, pre[i].category);
        assert after[j].name == expenses[i].category;
      }
    }
  }

  /** The position of the first transaction of category `name`, or `|s|`. */
  function FirstOf(s: seq<Transaction>, name: string): (r: nat)
    ensures r <= |s|
    ensures r < |s| ==> s[r].category == name
    ensures forall h :: 0 <= h < r ==> s[h].category != name
  {
    if s == [] || s[0].category == name then 0 else 1 + FirstOf(s[1..], name)
  }

  lemma {:induction false} FirstOfSnoc(pre: seq<Transaction>, t: Transaction, name: string)
    ensures FirstOf(pre + [t], name) ==
      if FirstOf(pre, name) < |pre| then FirstOf(pre, name)
      else if t.category == name then |pre| else |pre| + 1
  {
    if pre == [] {
      assert [t][1..] == [];
    } else {
      assert (pre + [t])[0] == pre[0];
      assert (pre + [t])[1..] == pre[1..] + [t];
      FirstOfSnoc(pre[1..], t, name);
    }
  }

  /** The entries come in the order their categories first occur, and every
      entry's category does occur. */
  lemma {:induction false} GroupInFirstOccurrenceOrder(expenses: seq<Transaction>)
    ensures forall j :: 0 <= j < |GroupByCategory(expenses)| ==>
      FirstOf(expenses, GroupByCategory(expenses)[j].name) < |expenses|
    ensures forall i, j :: 0 <= i < j < |GroupByCategory(expenses)| ==>
      FirstOf(expenses, GroupByCategory(expenses)[i].name) < FirstOf(expenses, GroupByCategory(expenses)[j].name)
  {
    if expenses != [] {
      var pre, t := expenses[..|expenses| - 1], expenses[|expenses| - 1];
      var before, after := GroupByCategory(pre), GroupByCategory(expenses);
      assert expenses == pre + [t];
      GroupInFirstOccurrenceOrder(pre);
      GroupCoversEveryCategory(pre);
      AddExpenseShape(before, t);
      forall j | 0 <= j < |after|
        ensures FirstOf(expenses, after[j].name) == (if j < |before| then FirstOf(pre, before[j].name) else |pre|)
      {
        FirstOfSnoc(pre, t, after[j].name);
        if j < |before| {
          assert after[j].name == before[j].name;
          assert FirstOf(pre, before[j].name) < |pre|;
        } else {
          assert FirstOf(pre, t.category) == |pre|;
        }
      }
    }
  }

  /** Each entry's value is the sum of the amounts of its category. */
  lemma {:induction false} GroupValueIsCategorySum(expenses: seq<Transaction>, j: nat)
    requires j < |GroupByCategory(expenses)|
    ensures GroupByCategory(expenses)[j].value
      == SumAmounts(Filter(expenses, InCategory(GroupByCategory(expenses)[j].name)))
  {
    var pre, t := expenses[..|expenses| - 1], expenses[|expenses| - 1];
    var before, after := GroupByCategory(pre), GroupByCategory(expenses);
    assert expenses == pre + [t];
    GroupNamesDistinct(pre);
    GroupCoversEveryCategory(pre);
    AddExpenseShape(before, t);
    AddExpenseEntry(before, t, j);
    var p := InCategory(after[j].name);
    FilterAppend(pre, [t], p);
    FilterSingleton(t, p);
    SumAppend(Filter(pre, p), Filter([t], p), AmountOf);
    SumSingleton(t, AmountOf);
    if j < |before| {
      GroupValueIsCategorySum(pre, j);
    } else {
      FilterNone(pre, p);
    }
  }

  lemma AddExpenseSum(cs: seq<CategoryTotal>, t: Transaction)
    ensures Sum(AddExpense(cs, t), ValueOf) == Sum(cs, ValueOf) + t.amount
  {
    var i := IndexOf(cs, NameOf, t.category);
    if i < |cs| {
      SumUpdate(cs, i, CategoryTotal(t.category, cs[i].value + t.amount), ValueOf);
    } else {
      SumAppend(cs, [CategoryTotal(t.category, t.amount)], ValueOf);
      SumSingleton(CategoryTotal(t.category, t.amount), ValueOf);
    }
  }

  lemma {:induction false} GroupConservesSum(expenses: seq<Transaction>)
    ensures Sum(GroupByCategory(expenses), ValueOf) == SumAmounts(expenses)
  {
    if expenses != [] {
      var pre, t := expenses[..|expenses| - 1], expenses[|expenses| - 1];
      GroupConservesSum(pre);
      assert expenses == pre + [t];
      SumAppend(pre, [t], AmountOf);
      SumSingleton(t, AmountOf);
      AddExpenseSum(GroupByCategory(pre), t);
    }
  }

  /** Only expense goes in: every entry names the category of some expense
      transaction. */
  lemma CategoryEntriesComeFromExpenses(txs: seq<Transaction>, j: nat)
    requires j < |CategoryRanking(txs)|
    ensures exists i :: 0 <= i < |txs| && txs[i].kind == Expense && txs[i].category == CategoryRanking(txs)[j].name
  {
    var expenses, groups, ranking := Expenses(txs), CategoryGroups(txs), CategoryRanking(txs);
    assert ranking[j] in multiset(groups);
    var g :| 0 <= g < |groups| && groups[g] == ranking[j];
    GroupInFirstOccurrenceOrder(expenses);
    var e := expenses[FirstOf(expenses, groups[g].name)];
    assert e in txs;
    var i :| 0 <= i < |txs| && txs[i] == e;
  }

  /** Every expense transaction's category has an entry. */
  lemma ExpenseCategoriesHaveEntries(txs: seq<Transaction>, i: nat)
    requires i < |txs| && txs[i].kind == Expense
    ensures exists j :: 0 <= j < |CategoryRanking(txs)| && CategoryRanking(txs)[j].name == txs[i].category
  {
    var expenses, groups, ranking := Expenses(txs), CategoryGroups(txs), CategoryRanking(txs);
    assert txs[i] in expenses;
    var e :| 0 <= e < |expenses| && expenses[e] == txs[i];
    GroupCoversEveryCategory(expenses);
    var g := IndexOf(groups, NameOf, expenses[e].category);
    assert groups[g] in multiset(ranking);
    var j :| 0 <= j < |ranking| && ranking[j] == groups[g];
  }

  /** Each category appears once, with the sum of its expense amounts. */
  lemma CategoryValuesAreSums(txs: seq<Transaction>)
    ensures DistinctNames(CategoryRanking(txs))
    ensures forall j :: 0 <= j < |CategoryRanking(txs)| ==>
      CategoryRanking(txs)[j].value == SumAmounts(Filter(Expenses(txs), InCategory(CategoryRanking(txs)[j].name)))
  {
    var groups, ranking := CategoryGroups(txs), CategoryRanking(txs);
    GroupNamesDistinct(Expenses(txs));
    forall i, j | 0 <= i < j < |ranking| ensures ranking[i].name != ranking[j].name {
      PermutationKeepsDistinctNames(groups, ranking, i, j);
    }
    forall j | 0 <= j < |ranking|
      ensures ranking[j].value == SumAmounts(Filter(Expenses(txs), InCategory(ranking[j].name)))
    {
      assert ranking[j] in multiset(groups);
      var g :| 0 <= g < |groups| && groups[g] == ranking[j];
      GroupValueIsCategorySum(Expenses(txs), g);
    }
  }

  lemma PermutationKeepsDistinctNames(cs: seq<CategoryTotal>, ps: seq<CategoryTotal>, i: nat, j: nat)
    requires DistinctNames(cs) && multiset(ps) == multiset(cs)
    requires i < j < |ps|
    ensures ps[i].name != ps[j].name
  {
    if ps[i].name == ps[j].name {
      assert ps[i] in multiset(cs) && ps[j] in multiset(cs);
      var a :| 0 <= a < |cs| && cs[a] == ps[i];
      var b :| 0 <= b < |cs| && cs[b] == ps[j];
      assert a == b;
      OccursTwice(ps, i, j);
      NamedEntryOccursOnce(cs, a);
    }
  }

  lemma NamedEntryOccursOnce(cs: seq<CategoryTotal>, a: nat)
    requires DistinctNames(cs) && a < |cs|
    ensures multiset(cs)[cs[a]] == 1
  {
    assert cs == cs[..a] + [cs[a]] + cs[a + 1..];
    assert cs[a] !in cs[..a];
    assert cs[a] !in cs[a + 1..];
  }

  /** The values add up to the total expense of `stats`. */
  lemma CategoryValuesAddUpToExpense(txs: seq<Transaction>)
    ensures Sum(CategoryRanking(txs), ValueOf) == TotalsOf(txs).expense
  {
    GroupConservesSum(Expenses(txs));
    SortPreservesSum(CategoryGroups(txs), ByValueDesc, ValueOf);
  }

  lemma ByValueDescIsTotalPreorder()
    ensures TotalPreorder(ByValueDesc)
  {
  }

  function HasValue(v: nat): CategoryTotal -> bool
  {
    (c: CategoryTotal) => c.value == v
  }

  /** Sorting by value keeps the entries of one value in their order. */
  lemma RankingKeepsEqualValuesInOrder(groups: seq<CategoryTotal>, v: nat)
    ensures Filter(Sort(groups, ByValueDesc), HasValue(v)) == Filter(groups, HasValue(v))
  {
    ByValueDescIsTotalPreorder();
    SortKeepsClassOrder(groups, ByValueDesc, CategoryTotal("", v), HasValue(v));
  }

  /** The ranking is in descending value order, holds exactly the grouped
      entries, and entries of equal value keep the order in which their
      categories first occur among the expenses. */
  lemma CategoryRankingOrder(txs: seq<Transaction>, v: nat)
    ensures forall i, j :: 0 <= i < j < |CategoryRanking(txs)| ==>
      CategoryRanking(txs)[i].value >= CategoryRanking(txs)[j].value
    ensures multiset(CategoryRanking(txs)) == multiset(CategoryGroups(txs))
    ensures Filter(CategoryRanking(txs), HasValue(v)) == Filter(CategoryGroups(txs), HasValue(v))
    ensures forall i, j :: 0 <= i < j < |CategoryGroups(txs)| ==>
      FirstOf(Expenses(txs), CategoryGroups(txs)[i].name) < FirstOf(Expenses(txs), CategoryGroups(txs)[j].name)
  {
    var groups := CategoryGroups(txs);
    ByValueDescIsTotalPreorder();
    SortSorted(groups, ByValueDesc);
    RankingKeepsEqualValuesInOrder(groups, v);
    GroupInFirstOccurrenceOrder(Expenses(txs));
  }

  /** The keys of `categories` are exactly the listed ones. */
  ghost predicate ListsKeys(categories: map<string, nat>, order: seq<string>)
  {
    forall k :: k in categories <==> k in order
  }

  /** The entries of `categories`, listed in the insertion order of its keys. */
  function CategoryEntries(categories: map<string, nat>, order: seq<string>): seq<CategoryTotal>
    requires ListsKeys(categories, order)
  {
    seq(|order|, j requires 0 <= j < |order| => CategoryTotal(order[j], categories[order[j]]))
  }

  /** Adding to an existing entry in place is the step of `AddExpense` that finds it. */
  lemma CreditCategory(categories: map<string, nat>, order: seq<string>, t: Transaction)
    requires ListsKeys(categories, order)
    requires DistinctNames(CategoryEntries(categories, order))
    requires t.category in categories
    ensures ListsKeys(categories[t.category := categories[t.category] + t.amount], order)
    ensures CategoryEntries(categories[t.category := categories[t.category] + t.amount], order)
      == AddExpense(CategoryEntries(categories, order), t)
  {
    var es := CategoryEntries(categories, order);
    var j0 :| 0 <= j0 < |order| && order[j0] == t.category;
    assert es[j0].name == t.category;
    var i := IndexOf(es, NameOf, t.category);
    assert order[i] == t.category;
    forall j | 0 <= j < |order| && j != i ensures order[j] != t.category {
      assert es[j].name != es[i].name;
    }
  }

  /** Adding a new key is the step of `AddExpense` that appends. */
  lemma NewCategory(categories: map<string, nat>, order: seq<string>, t: Transaction)
    requires ListsKeys(categories, order)
    requires t.category !in categories
    ensures ListsKeys(categories[t.category := 0 + t.amount], order + [t.category])
    ensures CategoryEntries(categories[t.category := 0 + t.amount], order + [t.category])
      == AddExpense(CategoryEntries(categories, order), t)
  {
    var es := CategoryEntries(categories, order);
    assert forall j :: 0 <= j < |es| ==> es[j].name != t.category;
    assert IndexOf(es, NameOf, t.category) == |es|;
  }

  /** One pass of the `forEach`: `categories[c] = (categories[c] || 0) +
      amount`. On the entries this is exactly `AddExpense`. */
  method AddToCategories(categories: map<string, nat>, order: seq<string>, t: Transaction)
    returns (categories': map<string, nat>, order': seq<string>)
    requires ListsKeys(categories, order) && DistinctNames(CategoryEntries(categories, order))
    ensures ListsKeys(categories', order')
    ensures CategoryEntries(categories', order') == AddExpense(CategoryEntries(categories, order), t)
  {
    var prev := if t.category in categories then categories[t.category] else 0;
    order' := order;
    if t.category !in categories {
      NewCategory(categories, order, t);
      order' := order + [t.category];
    } else {
      CreditCategory(categories, order, t);
    }
    categories' := categories[t.category := prev + t.amount];
  }

  /** Grouping one more expense is one step of `AddExpense`. */
  lemma GroupByCategorySnoc(expenses: seq<Transaction>, i: nat)
    requires i < |expenses|
    ensures GroupByCategory(expenses[..i + 1]) == AddExpense(GroupByCategory(expenses[..i]), expenses[i])
  {
    assert expenses[..i + 1][..i] == expenses[..i];
  }

  /** `categoryData`: total the expense amounts per category in a
      dictionary, then rank the entries by value, largest first. */
  method CategoryData(txs: seq<Transaction>) returns (ranking: seq<CategoryTotal>)
    ensures ranking == CategoryRanking(txs)
  {
    var categories: map<string, nat> := map[];
    var order: seq<string> := [];
    var expenses := Expenses(txs);
    for i := 0 to |expenses|
      invariant ListsKeys(categories, order)
      invariant CategoryEntries(categories, order) == GroupByCategory(expenses[..i])
    {
      GroupByCategorySnoc(expenses, i);
      GroupNamesDistinct(expenses[..i]);
      categories, order := AddToCategories(categories, order, expenses[i]);
    }
    assert expenses[..|expenses|] == expenses;
    ranking := Sort(CategoryEntries(categories, order), ByValueDesc);
  }

  // ---------------------------------------------------------------------------
  // Chart titles
  // ---------------------------------------------------------------------------

  /** `getPeriodLabel`: the title suffix names the period shown, a different
      one for each period. */
  function PeriodLabel(period: Period): (r: string)
    ensures r == "Today" <==> period == Daily
    ensures r == "Last 7 Days" <==> period == Weekly
    ensures r == "This Month" <==> period == Monthly
    ensures r == "This Year" <==> period == Yearly
  {
    match period
    case Daily => "Today"
    case Weekly => "Last 7 Days"
    case Monthly => "This Month"
    case Yearly => "This Year"
  }
}
