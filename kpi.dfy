/** The KPI cards of the dashboard (src/components/Dashboard/KPI.tsx): the
    number of distinct days in the shown transactions, the window of the
    previous period and its per-type sums, the period-over-period change of
    income and of expense, and the average expense per hour, day or month.

    The clock read (`new Date()`) is the parameter `now`; the shown income
    and expense are the parameters the component receives as props. */
module Kpi {
  import opened Calendar
  import opened Seqs
  import opened Records

  /** The calendar dates (without time of day) present in `txs`. */
  function DistinctDays(txs: seq<Transaction>): (r: set<CalendarDay>)
    ensures |r| <= |txs|
    ensures forall i :: 0 <= i < |txs| ==> DayOf(txs[i].date) in r
    ensures forall d :: d in r ==> exists i :: 0 <= i < |txs| && DayOf(txs[i].date) == d
  {
    if txs == [] then {}
    else
      var rest := DistinctDays(txs[1..]);
      TailWitnesses(txs, rest);
      {DayOf(txs[0].date)} + rest
  }

  /** A date seen in the tail of `txs` is seen in `txs` itself. */
  lemma TailWitnesses(txs: seq<Transaction>, days: set<CalendarDay>)
    requires txs != []
    requires forall d :: d in days ==> exists i :: 0 <= i < |txs[1..]| && DayOf(txs[1..][i].date) == d
    ensures forall d :: d in days ==> exists i :: 1 <= i < |txs| && DayOf(txs[i].date) == d
  {
    forall d | d in days ensures exists i :: 1 <= i < |txs| && DayOf(txs[i].date) == d {
      var j :| 0 <= j < |txs[1..]| && DayOf(txs[1..][j].date) == d;
      assert DayOf(txs[1 + j].date) == d;
    }
  }

  /** daysCount: 1 for no transactions, otherwise the number of distinct
      calendar dates among them. It is never 0, so it can divide. */
  function DaysCount(txs: seq<Transaction>): (r: nat)
    ensures 1 <= r
    ensures txs == [] ==> r == 1
    ensures txs != [] ==> r == |DistinctDays(txs)| && r <= |txs|
  {
    if txs == [] then 1
    else
      assert DayOf(txs[0].date) in DistinctDays(txs);
      |DistinctDays(txs)|
  }

  /** Transactions on one calendar day count once, whatever their hours. */
  lemma DaysCountOneDay(txs: seq<Transaction>)
    requires txs != []
    requires forall i :: 0 <= i < |txs| ==> DayOf(txs[i].date) == DayOf(txs[0].date)
    ensures DaysCount(txs) == 1
  {
    var days := DistinctDays(txs);
    assert days == {DayOf(txs[0].date)};
  }

  /** The clock reading `new Date()`: the hour it falls in, and whether any
      minutes, seconds or milliseconds have passed since that hour began.
      A transaction date (`new Date('YYYY-MM-DD')`) always falls on a whole
      hour, so in the weekly comparisons a transaction at the clock's own
      hour lies before the reading exactly when the reading is past the
      hour. */
  datatype Clock = Clock(at: Date, pastTheHour: bool)

  /** `date >= c`, for a whole-hour `date` and a copy `c` of the clock moved
      to the hour `t` (the copy keeps the reading's part past the hour). */
  predicate NotBeforeReading(date: Date, t: Date, pastTheHour: bool)
  {
    if pastTheHour then Before(t, date) else AtOrBefore(t, date)
  }

  /** `date < c`, for the same kind of copy `c`. */
  predicate BeforeReading(date: Date, t: Date, pastTheHour: bool)
  {
    if pastTheHour then AtOrBefore(date, t) else Before(date, t)
  }

  /** The previous-period classifier of `previousPeriodData`: yesterday's
      calendar date, the seven days from two weeks ago up to one week ago,
      the month `setMonth` lands on, or the year before. */
  predicate InPreviousWindow(period: Period, now: Clock, date: Date)
  {
    match period
    case Daily => DayOf(date) == DayOf(PrevDay(now.at))
    case Weekly =>
      NotBeforeReading(date, SubDays(now.at, 14), now.pastTheHour)
      && BeforeReading(date, SubDays(now.at, 7), now.pastTheHour)
    case Monthly => YearMonth(date.year, date.month) == LastMonth(now.at)
    case Yearly => date.year == now.at.year - 1
  }

  /** The previous window lies strictly before `now`, except for the monthly
      window when `setMonth` overflowed into the current month. */
  lemma PreviousWindowPrecedesNow(period: Period, now: Clock, date: Date)
    requires InPreviousWindow(period, now, date)
    requires period == Monthly ==>
      var p := MonthBefore(now.at.year, now.at.month); now.at.day <= DaysInMonth(p.year, p.month)
    ensures Before(date, now.at)
  {
    match period
    case Daily =>
      assert Before(PrevDay(now.at), now.at);
    case Weekly =>
      assert Before(SubDays(now.at, 7), now.at);
    case Monthly =>
    case Yearly =>
  }

  /** Where a transaction at hour `h` of the day of `x` falls against a copy
      of the clock moved to the day of `t`: after it when the day is later,
      before it when the day is earlier, and on the same day by its time of
      day. */
  lemma CompareWithReading(x: Date, t: Date, h: nat, pastTheHour: bool)
    requires x.hour == t.hour && h < 24
    ensures var e: Date := x.(hour := h);
      var earlierInDay := h < t.hour || (h == t.hour && pastTheHour);
      && (Before(t, x) ==> NotBeforeReading(e, t, pastTheHour) && !BeforeReading(e, t, pastTheHour))
      && (x == t ==>
            (NotBeforeReading(e, t, pastTheHour) <==> !earlierInDay)
            && (BeforeReading(e, t, pastTheHour) <==> earlierInDay))
      && (Before(x, t) ==> !NotBeforeReading(e, t, pastTheHour) && BeforeReading(e, t, pastTheHour))
  {
  }

  /** The weekly test for a transaction on the day of `x`, given where that
      day lies against the days two weeks (`lo`) and one week (`hi`) back. */
  lemma WeeklyTestByDay(lo: Date, hi: Date, x: Date, k: nat, h: nat, pastTheHour: bool)
    requires lo.hour == hi.hour == x.hour && h < 24
    requires k < 7 ==> Before(hi, x)
    requires k == 7 ==> x == hi && Before(lo, hi)
    requires 7 < k < 14 ==> Before(lo, x) && Before(x, hi)
    requires k == 14 ==> x == lo && Before(lo, hi)
    requires 14 < k ==> Before(x, lo) && Before(lo, hi)
    ensures var e: Date := x.(hour := h);
      var earlierInDay := h < x.hour || (h == x.hour && pastTheHour);
      (NotBeforeReading(e, lo, pastTheHour) && BeforeReading(e, hi, pastTheHour))
      <==> (if earlierInDay then 7 <= k < 14 else 7 < k <= 14)
  {
    CompareWithReading(x, lo, h, pastTheHour);
    CompareWithReading(x, hi, h, pastTheHour);
    if k < 7 {
      assert !Before(x, hi) && x != hi;
    }
  }

  /** A transaction `k` days before `now`, at hour `h` of that day, is in the
      weekly window when 7 <= k < 14 if its time of day is earlier than the
      reading's, and when 7 < k <= 14 otherwise. So at the reading's own hour
      the day 14 days back is in and the day 7 days back out when the reading
      is on the hour, and the other way round once it is past the hour. */
  lemma WeeklyWindowBounds(now: Clock, k: nat, h: nat)
    requires h < 24
    ensures var e: Date := SubDays(now.at, k).(hour := h);
      var earlierInDay := h < now.at.hour || (h == now.at.hour && now.pastTheHour);
      InPreviousWindow(Weekly, now, e) <==> if earlierInDay then 7 <= k < 14 else 7 < k <= 14
  {
    var at := now.at;
    var lo, hi, x := SubDays(at, 14), SubDays(at, 7), SubDays(at, k);
    SubDaysMonotone(at, 7, 14);
    if k < 7 {
      SubDaysMonotone(at, k, 7);
    } else if 7 < k < 14 {
      SubDaysMonotone(at, 7, k);
      SubDaysMonotone(at, k, 14);
    } else if 14 < k {
      SubDaysMonotone(at, 14, k);
    }
    WeeklyTestByDay(lo, hi, x, k, h, now.pastTheHour);
  }

  /** On 31 March the previous monthly window is March itself: February has
      no 31st, so `setMonth(1)` overflows, and a later hour of `now`'s own
      day counts as "last month". */
  lemma MonthlyWindowOverflowsOnThirtyFirst()
    ensures LastMonth(Instant(2025, 2, 31, 9)) == YearMonth(2025, 2)
    ensures InPreviousWindow(Monthly, Clock(Instant(2025, 2, 31, 9), true), Instant(2025, 2, 31, 20))
    ensures LastMonth(Instant(2025, 2, 15, 9)) == YearMonth(2025, 1)
    ensures LastMonth(Instant(2025, 0, 31, 9)) == YearMonth(2024, 11)
  {
  }

  /** `previousTransactions`: the transactions of the previous window, in
      their original order, each as many times as it occurs in `all`. */
  function PreviousTransactions(all: seq<Transaction>, period: Period, now: Clock): (r: seq<Transaction>)
    ensures forall i :: 0 <= i < |r| ==> r[i] in all && InPreviousWindow(period, now, r[i].date)
    ensures forall i :: 0 <= i < |all| && InPreviousWindow(period, now, all[i].date) ==> all[i] in r
    ensures forall t :: multiset(r)[t] == if InPreviousWindow(period, now, t.date) then multiset(all)[t] else 0
    ensures IsSubsequence(r, all)
  {
    var inWindow := (t: Transaction) => InPreviousWindow(period, now, t.date);
    FilterIsSubsequence(all, inWindow);
    FilterCounts(all, inWindow);
    Filter(all, inWindow)
  }

  datatype PreviousTotals = PreviousTotals(prevIncome: nat, prevExpense: nat)

  /** `previousPeriodData`: the per-type sums over the previous window. */
  function PreviousPeriodData(all: seq<Transaction>, period: Period, now: Clock): (r: PreviousTotals)
    ensures var prev := PreviousTransactions(all, period, now);
      r.prevIncome == SumOfKind(prev, Income) && r.prevExpense == SumOfKind(prev, Expense)
    ensures r.prevIncome + r.prevExpense == SumAmounts(PreviousTransactions(all, period, now))
    ensures (forall i :: 0 <= i < |all| ==> !InPreviousWindow(period, now, all[i].date)) ==>
      r == PreviousTotals(0, 0)
  {
    var prev := PreviousTransactions(all, period, now);
    KindsPartitionSum(prev);
    assert (forall i :: 0 <= i < |all| ==> !InPreviousWindow(period, now, all[i].date)) ==> prev == [];
    PreviousTotals(SumOfKind(prev, Income), SumOfKind(prev, Expense))
  }

  const PlusHundredPercent := "+100% from last period"
  const NoPreviousData := "No data from last period"

  /** The change annotation of a KPI card: one of the two fixed texts, or
      `${sign}${percent.toFixed(1)}% from last period`, kept here as the sign
      and the exact percentage. */
  datatype ChangeText = Fixed(text: string) | Percent(sign: string, percent: real)

  datatype Change = Change(text: ChangeText, isPositive: bool)

  /** The text shared by the income and the expense card. */
  function ChangeTextOf(current: nat, previous: nat): (r: ChangeText)
    ensures previous == 0 ==> r == Fixed(if current > 0 then PlusHundredPercent else NoPreviousData)
    ensures previous != 0 ==> r.Percent?
    ensures previous != 0 ==> r.percent * previous as real == (current as real - previous as real) * 100.0
    ensures previous != 0 ==> (r.sign == "+" <==> current >= previous)
    ensures previous != 0 ==> (r.sign == "" <==> current < previous)
  {
    if previous == 0 then
      Fixed(if current > 0 then PlusHundredPercent else NoPreviousData)
    else
      var change := current as real - previous as real;
      var percent := change / previous as real * 100.0;
      assert percent >= 0.0 <==> change >= 0.0;
      Percent(if percent >= 0.0 then "+" else "", percent)
  }

  /** `incomeChangeData`: more income than before is favourable. */
  function IncomeChange(income: nat, prevIncome: nat): (r: Change)
    ensures r.text == ChangeTextOf(income, prevIncome)
    ensures prevIncome == 0 ==> (r.isPositive <==> income > 0)
    ensures prevIncome != 0 ==> (r.isPositive <==> income >= prevIncome)
  {
    if prevIncome == 0 then
      Change(ChangeTextOf(income, prevIncome), income > 0)
    else
      Change(ChangeTextOf(income, prevIncome), income - prevIncome >= 0)
  }

  /** `expenseChangeData`: less spending than before is favourable. */
  function ExpenseChange(expense: nat, prevExpense: nat): (r: Change)
    ensures r.text == ChangeTextOf(expense, prevExpense)
    ensures prevExpense == 0 ==> (r.isPositive <==> expense == 0)
    ensures prevExpense != 0 ==> (r.isPositive <==> expense < prevExpense)
  {
    if prevExpense == 0 then
      Change(ChangeTextOf(expense, prevExpense), expense == 0)
    else
      Change(ChangeTextOf(expense, prevExpense), expense - prevExpense < 0)
  }

  /** The expense card shows the same text as an income card with the same
      figures would, with the opposite favourability, in every case. */
  lemma ExpenseFavourabilityInverted(current: nat, previous: nat)
    ensures ExpenseChange(current, previous).text == IncomeChange(current, previous).text
    ensures ExpenseChange(current, previous).isPositive == !IncomeChange(current, previous).isPositive
  {
  }

  /** With a previous total, income is favourable exactly when the shown
      percentage carries a '+'; expense exactly when it does not. */
  lemma FavourabilityFollowsSign(current: nat, previous: nat)
    requires previous != 0
    ensures IncomeChange(current, previous).isPositive <==> IncomeChange(current, previous).text.sign == "+"
    ensures ExpenseChange(current, previous).isPositive <==> ExpenseChange(current, previous).text.sign == ""
  {
  }

  /** 9,000,000 after 8,500,000 is a rise of 5.88...%, shown as "+5.9%". */
  lemma MonthlyIncomeRiseExample()
    ensures IncomeChange(9000000, 8500000).isPositive
    ensures IncomeChange(9000000, 8500000).text.sign == "+"
    ensures 5.85 < IncomeChange(9000000, 8500000).text.percent < 5.95
  {
    var r := IncomeChange(9000000, 8500000);
    assert r.text.percent * 8500000.0 == 50000000.0;
  }

  /** `Math.round(x / d)` for x >= 0 and d > 0 (half-way cases round up). */
  function RoundDiv(x: nat, d: nat): (r: nat)
    requires d > 0
    ensures 2 * d * r <= 2 * x + d < 2 * d * r + 2 * d
    ensures r <= x
  {
    var q := (2 * x + d) / (2 * d);
    assert 2 * d * q <= 2 * x + d < 2 * d * q + 2 * d;
    RoundDivAtMostDividend(x, d, q);
    q
  }

  lemma RoundDivAtMostDividend(x: nat, d: nat, q: nat)
    requires d > 0 && 2 * d * q <= 2 * x + d
    ensures q <= x
  {
    assert 2 * x <= 2 * d * x;
    assert 2 * d * q < 2 * d * (x + 1);
    MulCancel(2 * d, q, x + 1);
  }

  lemma MulCancel(c: nat, a: nat, b: nat)
    requires c > 0 && c * a < c * b
    ensures a < b
  {
  }

  /** `avgLabel`. */
  function AvgLabel(period: Period): (r: string)
    ensures r == "Avg Hourly Expense" <==> period == Daily
    ensures r == "Avg Daily Expense" <==> period == Weekly || period == Monthly
    ensures r == "Avg Monthly Expense" <==> period == Yearly
  {
    match period
    case Daily => "Avg Hourly Expense"
    case Weekly => "Avg Daily Expense"
    case Monthly => "Avg Daily Expense"
    case Yearly => "Avg Monthly Expense"
  }

  /** The number of hours, days or months the average spreads over. */
  function AvgDivisor(period: Period, txs: seq<Transaction>): (d: nat)
    ensures 1 <= d
  {
    match period
    case Daily => 24
    case Weekly => DaysCount(txs)
    case Monthly => DaysCount(txs)
    case Yearly => 12
  }

  /** `avgExpense`: 0 without expense, otherwise the expense divided by the
      divisor of the period, rounded to the nearest whole Rupiah. */
  function AvgExpense(expense: nat, period: Period, txs: seq<Transaction>): (r: nat)
    ensures expense == 0 ==> r == 0
    ensures var d := AvgDivisor(period, txs);
      expense != 0 ==> 2 * d * r <= 2 * expense + d < 2 * d * r + 2 * d
    ensures r <= expense
  {
    if expense == 0 then 0
    else RoundDiv(expense, AvgDivisor(period, txs))
  }

  /** The label names the unit the average is taken over. */
  lemma AvgLabelMatchesDivisor(period: Period, txs: seq<Transaction>)
    ensures AvgLabel(period) == "Avg Hourly Expense" ==> AvgDivisor(period, txs) == 24
    ensures AvgLabel(period) == "Avg Monthly Expense" ==> AvgDivisor(period, txs) == 12
    ensures AvgLabel(period) == "Avg Daily Expense" ==> AvgDivisor(period, txs) == DaysCount(txs)
  {
  }
}
