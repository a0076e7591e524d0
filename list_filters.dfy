/** The filter chain shared, line for line, by the expense page
    (src/pages/Expense.tsx) and the income page (src/pages/Income.tsx): keep
    one type, then the picked date range, then the selected categories; and
    the toggle that maintains the category selection. */
module ListFilters {
  import opened Calendar
  import opened Seqs
  import opened Records

  /** The category chips of the income page (src/pages/Income.tsx:24); the
      add dialog offers the same list. */
  const IncomeCategories: seq<string> := ["Salary", "Freelance", "Investment", "Business", "Other Income"]

  /** The category chips of the expense page (src/pages/Expense.tsx:25); the
      add dialog offers the same list. */
  const ExpenseCategories: seq<string> := ["Food", "Transport", "Shopping", "Bills", "Entertainment", "Health", "Education", "Other"]

  /** JavaScript truthiness of a numeric id: 0 counts as missing. */
  predicate HasId(t: Transaction)
  {
    t.id != 0
  }

  /** The date-range picker's value. An unset picker (`undefined`) filters
      exactly like a range with neither end set. */
  datatype DateRange = DateRange(from: Option<Date>, to: Option<Date>)

  const NoRange := DateRange(None, None)

  /** `transactionDate >= from && transactionDate <= (to || from)`. */
  predicate InPickedRange(from: Date, to: Option<Date>, d: Date)
    ensures to.None? ==> (InPickedRange(from, to, d) <==> d == from)
    ensures to.Some? && Before(to.value, from) ==> !InPickedRange(from, to, d)
    ensures d == from && (to.None? || AtOrBefore(from, to.value)) ==> InPickedRange(from, to, d)
  {
    var last := if to.Some? then to.value else from;
    !Before(d, from) && !Before(last, d)
  }

  function InPickedRangeFn(from: Date, to: Option<Date>): Transaction -> bool
  {
    (t: Transaction) => InPickedRange(from, to, t.date)
  }

  function InSelection(selected: seq<string>): Transaction -> bool
  {
    (t: Transaction) => t.category in selected
  }

  /** Whether a transaction of type `kind` passes the page's filters: the
      date test applies only when `from` is set, the category test only when
      something is selected. */
  predicate Shown(kind: TxType, range: DateRange, selected: seq<string>, t: Transaction)
    ensures range.from.None? && selected == [] ==> (Shown(kind, range, selected, t) <==> t.kind == kind)
    ensures Shown(kind, range, selected, t) ==> t.kind == kind
  {
    && t.kind == kind
    && (range.from.Some? ==> InPickedRange(range.from.value, range.to, t.date))
    && (|selected| > 0 ==> t.category in selected)
  }

  /** `expenseTransactions` (kind Expense) and `incomeTransactions` (kind
      Income): the successive filters, each applied only when its control is
      set. The result is exactly the transactions that pass, in input order,
      each as many times as it occurs in `txs`. */
  function PageTransactions(txs: seq<Transaction>, kind: TxType, range: DateRange, selected: seq<string>)
    : (r: seq<Transaction>)
    ensures forall i :: 0 <= i < |r| ==> r[i] in txs && Shown(kind, range, selected, r[i])
    ensures forall i :: 0 <= i < |txs| && Shown(kind, range, selected, txs[i]) ==> txs[i] in r
    ensures forall t :: multiset(r)[t] == if Shown(kind, range, selected, t) then multiset(txs)[t] else 0
    ensures IsSubsequence(r, Filter(txs, OfKind(kind)))
  {
    var ofKind := Filter(txs, OfKind(kind));
    var inRange := if range.from.Some? then Filter(ofKind, InPickedRangeFn(range.from.value, range.to)) else ofKind;
    var inCategory := if |selected| > 0 then Filter(inRange, InSelection(selected)) else inRange;
    ChainIsSubsequence(ofKind, inRange, inCategory, range, selected);
    ChainMembers(txs, kind, ofKind, inRange, inCategory, range, selected);
    ChainCounts(txs, kind, ofKind, inRange, inCategory, range, selected);
    inCategory
  }

  lemma ChainIsSubsequence(ofKind: seq<Transaction>, inRange: seq<Transaction>, inCategory: seq<Transaction>,
                           range: DateRange, selected: seq<string>)
    requires inRange == if range.from.Some? then Filter(ofKind, InPickedRangeFn(range.from.value, range.to)) else ofKind
    requires inCategory == if |selected| > 0 then Filter(inRange, InSelection(selected)) else inRange
    ensures IsSubsequence(inCategory, ofKind)
  {
    SubsequenceReflexive(ofKind);
    SubsequenceReflexive(inRange);
    if range.from.Some? {
      FilterIsSubsequence(ofKind, InPickedRangeFn(range.from.value, range.to));
    }
    if |selected| > 0 {
      FilterIsSubsequence(inRange, InSelection(selected));
    }
    SubsequenceTransitive(inCategory, inRange, ofKind);
  }

  /** One optional stage of the chain: `r` holds the members of `s` that
      pass `p`, or all of them when the stage is switched off. */
  lemma StageMembers(s: seq<Transaction>, r: seq<Transaction>, on: bool, p: Transaction -> bool)
    requires r == if on then Filter(s, p) else s
    ensures forall t :: t in r <==> t in s && (on ==> p(t))
  {
    if on {
      forall t | t in r ensures t in s && p(t) {
        var k :| 0 <= k < |r| && r[k] == t;
      }
      forall t | t in s && p(t) ensures t in r {
        var k :| 0 <= k < |s| && s[k] == t;
      }
    }
  }

  lemma ChainMembers(txs: seq<Transaction>, kind: TxType, ofKind: seq<Transaction>, inRange: seq<Transaction>,
                     inCategory: seq<Transaction>, range: DateRange, selected: seq<string>)
    requires ofKind == Filter(txs, OfKind(kind))
    requires inRange == if range.from.Some? then Filter(ofKind, InPickedRangeFn(range.from.value, range.to)) else ofKind
    requires inCategory == if |selected| > 0 then Filter(inRange, InSelection(selected)) else inRange
    ensures forall i :: 0 <= i < |inCategory| ==> inCategory[i] in txs && Shown(kind, range, selected, inCategory[i])
    ensures forall i :: 0 <= i < |txs| && Shown(kind, range, selected, txs[i]) ==> txs[i] in inCategory
  {
    StageMembers(txs, ofKind, true, OfKind(kind));
    var from := if range.from.Some? then range.from.value else Instant(1970, 0, 1, 0);
    StageMembers(ofKind, inRange, range.from.Some?, InPickedRangeFn(from, range.to));
    StageMembers(inRange, inCategory, |selected| > 0, InSelection(selected));
  }

  /** One optional stage keeps every copy of what it lets through. */
  lemma StageCounts(s: seq<Transaction>, r: seq<Transaction>, on: bool, p: Transaction -> bool)
    requires r == if on then Filter(s, p) else s
    ensures forall t :: multiset(r)[t] == if on && !p(t) then 0 else multiset(s)[t]
  {
    if on {
      FilterCounts(s, p);
    }
  }

  lemma ChainCounts(txs: seq<Transaction>, kind: TxType, ofKind: seq<Transaction>, inRange: seq<Transaction>,
                    inCategory: seq<Transaction>, range: DateRange, selected: seq<string>)
    requires ofKind == Filter(txs, OfKind(kind))
    requires inRange == if range.from.Some? then Filter(ofKind, InPickedRangeFn(range.from.value, range.to)) else ofKind
    requires inCategory == if |selected| > 0 then Filter(inRange, InSelection(selected)) else inRange
    ensures forall t :: multiset(inCategory)[t] == if Shown(kind, range, selected, t) then multiset(txs)[t] else 0
  {
    StageCounts(txs, ofKind, true, OfKind(kind));
    var from := if range.from.Some? then range.from.value else Instant(1970, 0, 1, 0);
    StageCounts(ofKind, inRange, range.from.Some?, InPickedRangeFn(from, range.to));
    StageCounts(inRange, inCategory, |selected| > 0, InSelection(selected));
  }

  /** With no range start and no selection, the page lists every
      transaction of its type, in input order; an end date without a start
      changes nothing. */
  lemma NoFiltersListWholeType(txs: seq<Transaction>, kind: TxType, to: Option<Date>)
    ensures PageTransactions(txs, kind, DateRange(None, to), []) == Filter(txs, OfKind(kind))
  {
  }

  /** A range with only `from` set ends where it starts: the missing end
      defaults to the start. */
  lemma MissingEndDefaultsToStart(txs: seq<Transaction>, kind: TxType, from: Date, selected: seq<string>)
    ensures PageTransactions(txs, kind, DateRange(Some(from), None), selected)
         == PageTransactions(txs, kind, DateRange(Some(from), Some(from)), selected)
  {
    var ofKind := Filter(txs, OfKind(kind));
    FilterExtensional(ofKind, InPickedRangeFn(from, None), InPickedRangeFn(from, Some(from)));
  }

  /** `totalExpense` / `totalIncome`: the sum over the listed transactions.
      It never exceeds the type's overall total and equals it when no filter
      is set. */
  function PageTotal(txs: seq<Transaction>, kind: TxType, range: DateRange, selected: seq<string>): (r: nat)
    ensures r == SumAmounts(PageTransactions(txs, kind, range, selected))
    ensures r <= SumOfKind(txs, kind)
    ensures range.from.None? && selected == [] ==> r == SumOfKind(txs, kind)
  {
    var shown := PageTransactions(txs, kind, range, selected);
    SubsequenceSumLe(shown, Filter(txs, OfKind(kind)), AmountOf);
    SumAmounts(shown)
  }

  ghost predicate NoDuplicates(s: seq<string>)
  {
    forall i, j :: 0 <= i < j < |s| ==> s[i] != s[j]
  }

  function Other(c: string): string -> bool
  {
    (x: string) => x != c
  }

  /** `handleToggleCategory`: remove `c` if selected, append it otherwise.
      Afterwards `c` is selected exactly when it was not before, every other
      category keeps its state, and a selection without duplicates stays
      without duplicates. */
  function ToggleCategory(selected: seq<string>, c: string): (r: seq<string>)
    ensures c in r <==> c !in selected
    ensures forall x :: x != c ==> (x in r <==> x in selected)
    ensures c !in selected ==> r == selected + [c]
    ensures c in selected ==> IsSubsequence(r, selected) && |r| < |selected|
    ensures NoDuplicates(selected) ==> NoDuplicates(r)
  {
    if c in selected then
      var r := Filter(selected, Other(c));
      FilterIsSubsequence(selected, Other(c));
      FilterDropsOne(selected, c);
      SubsequenceKeepsNoDuplicates(r, selected);
      r
    else
      selected + [c]
  }

  lemma FilterDropsOne(s: seq<string>, c: string)
    requires c in s
    ensures |Filter(s, Other(c))| < |s|
  {
    var i :| 0 <= i < |s| && s[i] == c;
    assert s == s[..i] + [c] + s[i + 1..];
    FilterAppend(s[..i] + [c], s[i + 1..], Other(c));
    FilterAppend(s[..i], [c], Other(c));
    FilterSingleton(c, Other(c));
  }

  lemma {:induction false} SubsequencePreservesNoDuplicates(a: seq<string>, b: seq<string>)
    requires IsSubsequence(a, b) && NoDuplicates(b)
    ensures NoDuplicates(a)
    decreases |b|
  {
    if b == [] {
    } else if a != [] && a[0] == b[0] && IsSubsequence(a[1..], b[1..]) {
      SubsequencePreservesNoDuplicates(a[1..], b[1..]);
      SubsequenceKeepsMembers(a[1..], b[1..]);
      forall i, j | 0 <= i < j < |a| ensures a[i] != a[j] {
        if i == 0 {
          assert a[j] == a[1..][j - 1];
          assert a[j] in b[1..];
        } else {
          assert a[i] == a[1..][i - 1] && a[j] == a[1..][j - 1];
        }
      }
    } else {
      SubsequencePreservesNoDuplicates(a, b[1..]);
    }
  }

  lemma SubsequenceKeepsNoDuplicates(a: seq<string>, b: seq<string>)
    requires IsSubsequence(a, b)
    ensures NoDuplicates(b) ==> NoDuplicates(a)
  {
    if NoDuplicates(b) {
      SubsequencePreservesNoDuplicates(a, b);
    }
  }

  lemma {:induction false} SubsequenceKeepsMembers<T>(a: seq<T>, b: seq<T>)
    requires IsSubsequence(a, b)
    ensures forall x :: x in a ==> x in b
    decreases |b|
  {
    if b == [] {
    } else if a != [] && a[0] == b[0] && IsSubsequence(a[1..], b[1..]) {
      SubsequenceKeepsMembers(a[1..], b[1..]);
      assert forall x :: x in a ==> x == a[0] || x in a[1..];
    } else {
      SubsequenceKeepsMembers(a, b[1..]);
    }
  }

  /** Toggling an unselected category twice restores the selection. */
  lemma ToggleTwiceRestores(selected: seq<string>, c: string)
    requires NoDuplicates(selected) && c !in selected
    ensures ToggleCategory(ToggleCategory(selected, c), c) == selected
  {
    var once := selected + [c];
    FilterAppend(selected, [c], Other(c));
    FilterSingleton(c, Other(c));
    FilterKeepsAll(selected, Other(c));
  }
}
