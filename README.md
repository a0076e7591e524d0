# Money Tracker: transaction aggregation and filtering

A Dafny model of the list computations behind the Money Tracker dashboard
and its list pages. Every screen works on one list of transactions (id,
date, income or expense, category, description, whole-Rupiah amount,
payment method):

- the dashboard KPIs: distinct-day count, the previous-period window and its
  per-type sums, the period-over-period change and its favourability, and
  the rounded average expense;
- the dashboard chart: totals and balance, the income/expense trend grouped
  into hour, day or month buckets and ordered by a string sort key, and the
  expense ranking by category;
- the recent-transaction lists: five newest of one type;
- the transactions page: an inclusive date-range filter and its summary;
- the expense and income pages: the type, date-range and category filter
  chain, the page total, the category toggle, and the edit/delete staging
  state that refuses records without an id;
- the add-transaction dialog: its submit guard, the record it sends, and the
  reset that follows;
- the registration form: its ordered validation chain.

Modules: `Calendar` (dates at hour resolution and the JavaScript `Date`
adjustments used), `Seqs` (filter, sum, subsequence), `StableSort` (the
stable sort of `Array.prototype.sort`), `Strings` (number rendering,
zero padding, the order of sort keys), `Records` (the transaction record,
`Period`, per-type totals), then one module per screen: `Kpi`, `Chart`,
`Recent`, `TransactionsPage`, `ListFilters` (shared by the expense and
income pages), `ExpensePage`, `IncomePage`, `TransactionDialog`, `Register`.

The two dictionary loops of the chart (`trendData`, `categoryData`) are
methods over a `map` plus the list of keys in insertion order, proved equal
to value-level definitions (`Chart.TrendRows`, `Chart.CategoryRanking`)
about which the lemmas are stated. The page handlers are classes whose
fields are the React state; the remote calls `deleteTransaction` and
`addTransaction` are recorded in sequence fields and the outcome of a delete
is a parameter. The current time is a parameter: `now` (a `Kpi.Clock`, the hour of the reading and whether it is past that hour) and `today`.

## Model

| member | source | states |
|---|---|---|
| Records.TotalsOf | src/components/Dashboard/Chart.tsx:14-20 | income and expense are the per-type sums of amounts, balance is income minus expense, and together they account for every amount exactly once |
| Records.KindsPartitionSum | src/data/transactions.ts:1-9 | every record is income or expense, so the two per-type sums add up to the sum of all amounts |
| Records.SumOfKindAppend | src/components/Dashboard/Chart.tsx:15-16 | per-type sums distribute over concatenation of transaction lists |
| Calendar.PrevDay | src/components/Dashboard/KPI.tsx:42-43 | `setDate(getDate() - 1)` gives the same hour of the calendar day before, rolling back over month and year ends, and undoes the next-day step |
| Calendar.SubDays | src/components/Dashboard/KPI.tsx:56-59 | going n days back keeps the hour and is strictly earlier for n > 0 |
| Calendar.SubDaysMonotone | src/components/Dashboard/KPI.tsx:56-59 | going further back gives a strictly earlier date, so fourteen days back precedes seven days back |
| Calendar.LastMonth | src/components/Dashboard/KPI.tsx:68-69 | `setMonth(getMonth() - 1)` yields the month before (December of the previous year from January) unless the day does not exist there, in which case it overflows back into the current month, which only happens from the 29th on |
| Calendar.DayOfWeek | src/components/Dashboard/Chart.tsx:43 | `getDay()` is a weekday index below 7 |
| Calendar.DayOfWeekNextDay | src/components/Dashboard/Chart.tsx:43 | the next calendar day has the next weekday index, modulo 7, across month, year and leap-day ends |
| Calendar.DayOfWeekOfKnownDates | src/components/Dashboard/Chart.tsx:43 | 1 January 1970 is a Thursday (4) and 1 January 2025 a Wednesday (3); with the next-day step this fixes every date's weekday |
| Kpi.DistinctDays | src/components/Dashboard/KPI.tsx:21-22 | the set of calendar dates holds the date of every transaction and nothing else, and has no more elements than there are transactions |
| Kpi.DaysCount | src/components/Dashboard/KPI.tsx:18-24 | 1 for an empty list, otherwise the number of distinct calendar dates; never 0 and never more than the number of transactions |
| Kpi.DaysCountOneDay | src/components/Dashboard/KPI.tsx:18-24 | a non-empty list whose transactions all fall on one calendar date counts one day |
| Kpi.InPreviousWindow | src/components/Dashboard/KPI.tsx:39-86 | the classifier of each period: yesterday's calendar date; from the reading moved 14 days back (inclusive) to the reading moved 7 days back (exclusive), comparing whole-hour dates against a reading that may be past the hour; the month `setMonth(getMonth() - 1)` lands on; the year before. It has no contract of its own; its properties are the three lemmas below |
| Kpi.PreviousWindowPrecedesNow | src/components/Dashboard/KPI.tsx:39-86 | every date in the previous window (yesterday, the week before last, last month without overflow, last year) is earlier than the clock reading |
| Kpi.WeeklyWindowBounds | src/components/Dashboard/KPI.tsx:56-63 | a transaction k days back at hour h is in the weekly window exactly when 7 <= k < 14 if h is earlier in the day than the reading (an equal hour counts as earlier once the reading is past the hour), and exactly when 7 < k <= 14 otherwise |
| Kpi.MonthlyWindowOverflowsOnThirtyFirst | src/components/Dashboard/KPI.tsx:68-75 | on 31 March the "previous month" is March itself (no 31 February), mid-month it is February, and from January it is December of the year before |
| Kpi.PreviousTransactions | src/components/Dashboard/KPI.tsx:39-87 | the previous-period list holds exactly the transactions dated in the window chosen by the period, each as many times as in the input, in their original order |
| Kpi.PreviousPeriodData | src/components/Dashboard/KPI.tsx:89-96 | prevIncome and prevExpense are the per-type sums over the previous-period list, they add up to its total, and both are 0 when no transaction is in the window |
| Kpi.ChangeTextOf | src/components/Dashboard/KPI.tsx:103-115 | with a zero previous value the text is "+100% from last period" if the current value is positive and "No data from last period" otherwise; otherwise the percent is the exact (current - previous) / previous * 100 and the "+" sign appears exactly when the current value is at least the previous one |
| Kpi.IncomeChange | src/components/Dashboard/KPI.tsx:100-118 | an income change is favourable when income is positive against a zero previous income, and otherwise exactly when income did not fall |
| Kpi.ExpenseChange | src/components/Dashboard/KPI.tsx:121-139 | an expense change is favourable when expense is 0 against a zero previous expense, and otherwise exactly when expense fell |
| Kpi.ExpenseFavourabilityInverted | src/components/Dashboard/KPI.tsx:124-138 | for the same numbers, the expense card shows the same text as the income card with the opposite favourability |
| Kpi.FavourabilityFollowsSign | src/components/Dashboard/KPI.tsx:110-117 | with a non-zero previous value, income is favourable exactly when the "+" sign shows and expense exactly when it does not |
| Kpi.MonthlyIncomeRiseExample | src/components/Dashboard/KPI.tsx:110-117 | income rising from 8,500,000 to 9,000,000 is a favourable "+" change of about 5.9 percent |
| Kpi.RoundDiv | src/components/Dashboard/KPI.tsx:163 | `Math.round(x / d)` on non-negative whole numbers: the nearest whole number with halves rounded up, never more than x |
| Kpi.AvgLabel | src/components/Dashboard/KPI.tsx:142-154 | "Avg Hourly Expense" exactly for daily, "Avg Daily Expense" exactly for weekly and monthly, "Avg Monthly Expense" exactly for yearly |
| Kpi.AvgDivisor | src/components/Dashboard/KPI.tsx:160-173 | the divisor of the average is at least 1 for every period |
| Kpi.AvgExpense | src/components/Dashboard/KPI.tsx:157-174 | 0 when expense is 0, otherwise the expense divided by the period's divisor rounded to nearest, never more than the expense |
| Kpi.AvgLabelMatchesDivisor | src/components/Dashboard/KPI.tsx:142-174 | the label names the unit the average divides by: 24 hours for daily, 12 months for yearly, the day count for weekly and monthly |
| Chart.SlotOf | src/components/Dashboard/Chart.tsx:32-71 | the weekly sort key is the key itself and the label the weekday name; the other sort keys are the key padded to two characters; the daily label is the padded hour with ":00", the monthly label the key, the yearly label the month name |
| Chart.SlotKeyIdentifies | src/components/Dashboard/Chart.tsx:32-71 | two dates share a trend bucket key exactly when they share the hour (daily), the calendar date (weekly), the day of the month (monthly) or the month (yearly) |
| Chart.WeeklyKeyInjective | src/components/Dashboard/Chart.tsx:44 | the unpadded year-month-date key of the weekly chart never files two different calendar dates together |
| Chart.SortKeyOrderIsNumeric | src/components/Dashboard/Chart.tsx:37 | for daily, monthly and yearly charts the zero-padded sort keys order like the hour, day or month numbers they encode |
| Chart.WeeklySortKeyNotChronological | src/components/Dashboard/Chart.tsx:44-46 | the weekly sort key is not chronological: 2 January 2025 comes before 10 January, but its key "2025-0-2" sorts after "2025-0-10" |
| Chart.AddTo | src/components/Dashboard/Chart.tsx:73-81 | one step of the `forEach` as a value: credit the bucket of the key, creating it with the slot's label and sort key when the key is new. No contract of its own; `Chart.FileTransaction` and the Group lemmas state its behaviour |
| Chart.Group | src/components/Dashboard/Chart.tsx:26-82 | the buckets after the `forEach`, in key-insertion order, never more than the transactions; the Group lemmas below state what they hold |
| Chart.GroupKeysDistinct | src/components/Dashboard/Chart.tsx:73-75 | the grouping makes one bucket per key |
| Chart.GroupCoversEveryKey | src/components/Dashboard/Chart.tsx:26-82 | every transaction's key has a bucket |
| Chart.GroupBucketCreatedByFirst | src/components/Dashboard/Chart.tsx:73-75 | a bucket's key, label and sort key come from the first transaction filed under that key |
| Chart.GroupBucketSums | src/components/Dashboard/Chart.tsx:77-81 | a bucket's income and expense are the per-type sums of the transactions filed under its key |
| Chart.GroupConservesTotals | src/components/Dashboard/Chart.tsx:26-82 | every amount lands in exactly one bucket, on the income side exactly for income: bucket incomes sum to total income and bucket expenses to total expense |
| Chart.BySortKeyIsTotalPreorder | src/components/Dashboard/Chart.tsx:85-91 | the `localeCompare` comparison on sort keys is a total preorder, so the stable sort applies |
| Chart.TrendRows | src/components/Dashboard/Chart.tsx:84-96 | the buckets sorted by sort key and mapped to `{ month, income, expense }`. No contract of its own; `Chart.TrendData` equals it and the TrendRows lemmas state its properties |
| Chart.TrendRowsConserveTotals | src/components/Dashboard/Chart.tsx:84-96 | the chart rows' incomes add up to `stats.income` and their expenses to `stats.expense` |
| Chart.TrendRowsSorted | src/components/Dashboard/Chart.tsx:85-91 | the buckets come out in ascending sort-key order, still one per key |
| Chart.TrendRowsNumericOrder | src/components/Dashboard/Chart.tsx:32-65 | for daily, monthly and yearly charts later rows are for strictly later hours, days or months |
| Chart.FileTransaction | src/components/Dashboard/Chart.tsx:73-81 | one pass of the loop, which creates the key's entry when it is new and then adds the amount on the income or the expense side, changes the dictionary's entries exactly as the value-level grouping step does, keeping every entry under its own key |
| Chart.TrendData | src/components/Dashboard/Chart.tsx:23-97 | the dictionary loop followed by the sort and the row mapping computes exactly the rows of the value-level definition |
| Chart.AddExpense | src/components/Dashboard/Chart.tsx:113 | one step of the category `forEach` as a value. No contract of its own; `Chart.AddToCategories` and the category lemmas state its behaviour |
| Chart.GroupByCategory | src/components/Dashboard/Chart.tsx:109-114 | the category totals of the expenses in first-occurrence order, never more entries than expenses; the category lemmas below state what they hold |
| Chart.GroupNamesDistinct | src/components/Dashboard/Chart.tsx:109-114 | the category dictionary has one entry per category |
| Chart.GroupInFirstOccurrenceOrder | src/components/Dashboard/Chart.tsx:110-117 | category entries are listed in the order their categories first occur among the expenses |
| Chart.GroupValueIsCategorySum | src/components/Dashboard/Chart.tsx:113 | each entry's value is the sum of the amounts of that category's expenses |
| Chart.GroupConservesSum | src/components/Dashboard/Chart.tsx:110-114 | the entry values together add up to the sum of the expenses grouped |
| Chart.CategoryEntriesComeFromExpenses | src/components/Dashboard/Chart.tsx:110-112 | every ranked category is the category of some expense transaction; income never creates an entry |
| Chart.ExpenseCategoriesHaveEntries | src/components/Dashboard/Chart.tsx:110-114 | every expense transaction's category appears in the ranking |
| Chart.CategoryValuesAreSums | src/components/Dashboard/Chart.tsx:108-118 | the ranking has one entry per category and each value is that category's expense total |
| Chart.CategoryValuesAddUpToExpense | src/components/Dashboard/Chart.tsx:108-118 | the ranking's values add up to `stats.expense` |
| Chart.ByValueDescIsTotalPreorder | src/components/Dashboard/Chart.tsx:118 | the comparison `b.value - a.value` is a total preorder, so the stable sort applies |
| Chart.CategoryRankingOrder | src/components/Dashboard/Chart.tsx:116-118 | the ranking is a permutation of the entries in descending value order, and entries of equal value keep their first-occurrence order |
| Chart.AddToCategories | src/components/Dashboard/Chart.tsx:113 | `categories[c] = (categories[c] \|\| 0) + amount` changes the dictionary's entries exactly as the value-level grouping step does: it adds to the category's entry, or appends one when the category is new |
| Chart.CategoryRanking | src/components/Dashboard/Chart.tsx:108-119 | the category totals sorted by descending value. No contract of its own; `Chart.CategoryData` equals it and `Chart.CategoryRankingOrder` states its order |
| Chart.CategoryData | src/components/Dashboard/Chart.tsx:108-119 | the dictionary loop followed by the sort computes exactly the ranking of the value-level definition |
| Chart.PeriodLabel | src/components/Dashboard/Chart.tsx:124-132 | "Today", "Last 7 Days", "This Month" and "This Year" each exactly for daily, weekly, monthly and yearly |
| Strings.StrLe | src/components/Dashboard/Chart.tsx:85-91 | `localeCompare` on the sort keys as code-point order: a prefix sorts first, a smaller first character sorts first, and a key sorting first never starts with a larger character; total, transitive and antisymmetric by the StrLe lemmas |
| StableSort.SortSorted | src/components/Dashboard/Chart.tsx:85-91 | `Array.prototype.sort` with a total preorder produces an ordered list |
| StableSort.SortStable | src/components/Dashboard/Chart.tsx:116-118 | the sort is stable: among elements the comparison considers equal, the original order is kept |
| Recent.NewerFirstIsTotalPreorder | src/components/Dashboard/RecentTransactions.tsx:25 | comparing by date, newest first, is a total preorder |
| Recent.RecentOfKind | src/components/Dashboard/RecentTransactions.tsx:21-37 | the recent list holds only transactions of the requested type taken from the input, min(5, number of that type) of them, in non-increasing date order |
| Recent.LeftOutAreNoLater | src/components/Dashboard/RecentTransactions.tsx:23-26 | kept and left-out transactions together are exactly the transactions of that type; something is left out only when five are kept, and every left-out one is dated no later than every kept one |
| Recent.RecentIsStable | src/components/Dashboard/RecentTransactions.tsx:25 | transactions with equal dates keep their input order |
| Recent.ShortListsAreComplete | src/components/Dashboard/RecentTransactions.tsx:26 | with at most five transactions of the type, the recent list holds all of them |
| TransactionsPage.InRange | src/pages/Transactions.tsx:29-31 | a date equal to both bounds passes, nothing passes crossed bounds, and everything passes with no bound set |
| TransactionsPage.FilteredTransactions | src/pages/Transactions.tsx:23-33 | a transaction is kept exactly when no start is set or its date is not before the start, and no end is set or its date is not after the end; each kept one appears as many times as in the input, in input order |
| TransactionsPage.BoundsAreInclusive | src/pages/Transactions.tsx:29-30 | transactions dated exactly on the start or on the end are kept |
| TransactionsPage.NoBoundsKeepEverything | src/pages/Transactions.tsx:24-31 | with neither bound set the list is unchanged |
| TransactionsPage.CrossedBoundsKeepNothing | src/pages/Transactions.tsx:29-30 | a start later than the end keeps nothing and the summary is all zero |
| TransactionsPage.Summary | src/pages/Transactions.tsx:36-50 | income and expense are per-type sums over the filtered list, balance is their difference, and neither exceeds the unfiltered sum |
| ListFilters.InPickedRange | src/pages/Expense.tsx:39-44 | with no end picked only the start instant itself passes (`to \|\| from`); an end before the start lets nothing pass; the start passes when the end is not before it |
| ListFilters.Shown | src/pages/Expense.tsx:36-49 | a shown record always has the page's type, and with no start and no selection every record of that type is shown |
| ListFilters.PageTransactions | src/pages/Expense.tsx:35-52 | a transaction is listed exactly when it has the page's type, its date lies in the picked range when a start is picked, and its category is selected when the selection is non-empty; each listed one appears as many times as in the input, in input order |
| ListFilters.NoFiltersListWholeType | src/pages/Income.tsx:34-51 | with no start picked (whatever the end) and nothing selected, the page lists every transaction of its type in input order |
| ListFilters.MissingEndDefaultsToStart | src/pages/Expense.tsx:42 | a range with only a start filters as the one-point range from the start to itself |
| ListFilters.PageTotal | src/pages/Expense.tsx:62 | the page total is the sum of the listed amounts, never more than the type's overall sum, and equal to it with no filter set |
| ListFilters.ToggleCategory | src/pages/Expense.tsx:64-70 | a category becomes selected exactly when it was not, every other category keeps its state, an absent one is appended, and a duplicate-free selection stays duplicate-free |
| ListFilters.ToggleTwiceRestores | src/pages/Income.tsx:63-69 | toggling an unselected category twice restores a duplicate-free selection |
| ExpensePage.ExpensePage.Listed | src/pages/Expense.tsx:35-52 | the expense page lists exactly the expense transactions its filters let through, each as often as in the input, in input order, and all expenses when no filter is set |
| ExpensePage.ExpensePage.Total | src/pages/Expense.tsx:62 | `totalExpense` is the sum of the listed amounts and never exceeds `stats.expense` |
| ExpensePage.ExpensePage.HandleToggleCategory | src/pages/Expense.tsx:64-70 | the selection is toggled for one category and nothing else changes |
| ExpensePage.ExpensePage.ClearAll | src/pages/Expense.tsx:154 | clear-all empties the selection and nothing else changes |
| ExpensePage.ExpensePage.HandleEditClick | src/pages/Expense.tsx:72-84 | a record with a non-zero id becomes the edited one; otherwise the state is unchanged and "Cannot edit: Transaction ID is missing" is raised |
| ExpensePage.ExpensePage.CloseEditor | src/pages/Expense.tsx:142 | closing the editor clears the edited record |
| ExpensePage.ExpensePage.HandleDeleteClick | src/pages/Expense.tsx:86-98 | a record with a non-zero id is staged and the confirmation opens; otherwise the state is unchanged and "Cannot delete: Transaction ID is missing" is raised |
| ExpensePage.ExpensePage.SetDeleteDialogOpen | src/pages/Expense.tsx:246 | opening or closing the confirmation leaves the staged record in place |
| ExpensePage.ExpensePage.HandleDeleteConfirm | src/pages/Expense.tsx:100-118 | the staged id is sent for deletion; success closes the dialog and clears the target, failure keeps both and raises "Failed to delete transaction"; with nothing staged nothing is sent and "Cannot delete: No transaction ID" is raised; only non-zero ids are ever sent |
| ExpensePage.ExpensePage.SetDateRange | src/pages/Expense.tsx:149 | picking a range changes only the range |
| IncomePage.IncomePage.Listed | src/pages/Income.tsx:34-51 | the income page lists exactly the income transactions its filters let through, each as often as in the input, in input order, and all income when no filter is set |
| IncomePage.IncomePage.Total | src/pages/Income.tsx:61 | `totalIncome` is the sum of the listed amounts and never exceeds `stats.income` |
| IncomePage.IncomePage.HandleToggleCategory | src/pages/Income.tsx:63-69 | the selection is toggled for one category and nothing else changes |
| IncomePage.IncomePage.ClearAll | src/pages/Income.tsx:137 | clear-all empties the selection and nothing else changes |
| IncomePage.IncomePage.HandleEditClick | src/pages/Income.tsx:72-79 | a record with a non-zero id becomes the edited one; otherwise nothing changes |
| IncomePage.IncomePage.CloseEditor | src/pages/Income.tsx:125 | closing the editor clears the edited record |
| IncomePage.IncomePage.HandleDeleteClick | src/pages/Income.tsx:81-89 | a record with a non-zero id is staged and the confirmation opens; otherwise nothing changes |
| IncomePage.IncomePage.SetDeleteDialogOpen | src/pages/Income.tsx:229 | opening or closing the confirmation leaves the staged record in place |
| IncomePage.IncomePage.HandleDeleteConfirm | src/pages/Income.tsx:91-101 | a delete call is made exactly when a record is staged; success closes the dialog and clears the target, failure or nothing staged leaves both as they were; only non-zero ids are ever sent |
| IncomePage.IncomePage.SetDateRange | src/pages/Income.tsx:132 | picking a range changes only the range |
| TransactionDialog.EmptyForm | src/components/TransactionDialog.tsx:21-27 | the initial form holds today's date and every other field empty |
| TransactionDialog.CanSubmit | src/components/TransactionDialog.tsx:34-36 | the guard of `handleSubmit`: category, amount and payment method are non-empty. No contract of its own; the two lemmas below and `TransactionDialog.TransactionDialog.Submit` state its role |
| TransactionDialog.DescriptionDoesNotBlock | src/components/TransactionDialog.tsx:34 | the description never decides whether the form can be submitted |
| TransactionDialog.ResetFormIsRefused | src/components/TransactionDialog.tsx:47-53 | the reset form fails the guard, so submitting again right away sends nothing |
| TransactionDialog.CategoriesFor | src/components/TransactionDialog.tsx:29 | an income dialog offers the income categories, any other the expense categories |
| TransactionDialog.CategoryListsAreDisjoint | src/components/TransactionDialog.tsx:14-15 | no category is both an income and an expense category |
| TransactionDialog.TransactionDialog.Submit | src/components/TransactionDialog.tsx:31-55 | with an empty category, amount or payment method nothing changes; otherwise exactly one record is sent, of the dialog's type with the form's date, category, description, amount and payment method, then the form is reset and the dialog closes |
| TransactionDialog.TransactionDialog.SetOpen | src/components/TransactionDialog.tsx:58 | opening or closing keeps the form and sends nothing |
| TransactionDialog.TransactionDialog.SetForm | src/components/TransactionDialog.tsx:76 | editing a field keeps the dialog state and sends nothing |
| Register.Submit | src/pages/Register.tsx:19-40 | any empty field gives "Please fill in all fields"; otherwise differing passwords give "Passwords do not match"; otherwise a password shorter than 6 gives "Password must be at least 6 characters"; success with its message and the route "/" happens exactly when all checks pass |
| Register.SixCharactersAreEnough | src/pages/Register.tsx:32-35 | the length bound is inclusive: a six-character password is accepted |
| Register.MismatchReportedBeforeLength | src/pages/Register.tsx:22-35 | the first failing check wins: short passwords that do not match report the mismatch |
| Register.RejectionsUseFixedErrors | src/pages/Register.tsx:22-35 | every rejection carries one of the three fixed errors |

## Left out

- Rendering, charts, cards, animations (`AnimatedAmount`), `PeriodFilter`, `CategoryFilter`, the layout and routing components: presentation only; only the `Period` type of src/components/PeriodFilter.tsx:4 is modelled.
- `Intl.NumberFormat` and `Intl.DateTimeFormat` formatting, `toFixed(1)` and the pie chart's percentage labels: floating-point text output. The KPI percent is an exact real; only its sign and the branch logic are modelled.
- Date parsing and time zones: `new Date('YYYY-MM-DD')` is UTC midnight while the accessors read local time. Dates are modelled as local calendar dates at hour resolution, and every transaction date falls on a whole hour. Of the clock reading's minutes, seconds and milliseconds only whether any have passed is kept (`Kpi.Clock`), because that alone decides the edges of the weekly window. Daylight-saving shifts are left out.
- Kpi.PreviousWindowPrecedesNow: holds for the monthly window only when the day of `now` exists in the month before; on the 29th to the 31st the window can be the current month, which `Kpi.MonthlyWindowOverflowsOnThirtyFirst` shows.
- The clock: `new Date()` in the KPIs and in the dialog is a parameter (`now`, `today`).
- Register.Submit: models the `handleSubmit` handler alone. The browser's own form validation runs first and is not modelled: every field is `required` and the email input has `type="email"` (src/pages/Register.tsx:93, 100, 105, 117, 129). So the model registers an email such as "abc", and its "Please fill in all fields" branch is one the browser never lets through.
- TransactionDialog.TransactionDialog.Submit: models the `handleSubmit` handler alone. The browser's checks are not modelled: the `required` date (src/components/TransactionDialog.tsx:77), and the amount's `min="0"`, `step="1000"` and `required` (lines 107-111). Nor is the submit button's `disabled={isAdding}` (line 131). So the model sends a record with an empty date or with the amount "1500", which the form would refuse.
- Strings.StrLe: `localeCompare` is taken to agree with code-point order on the chart's sort keys, which hold only ASCII digits and '-'. Collation tables and locales are not modelled.
- The amount text of the add dialog is not parsed: `parseFloat` is left out, and the sent record carries the raw text.
- `Object.entries` lists integer-like keys first in numeric order. The model lists dictionary entries in insertion order. For the trend chart this makes no difference, because the rows are then sorted by keys that differ per bucket. For the category ranking it would differ only for categories named like non-negative integers, which none of the category lists has.
- The remote store (`useTransactions`: `addTransaction`, `deleteTransaction`) and authentication: the calls are recorded in sequence fields, and the outcome of a delete is a parameter; the records' effect on the list is not modelled.
- The alert dialog closes itself when its action button is clicked; that library behaviour is the separate `SetDeleteDialogOpen` step, not part of `HandleDeleteConfirm`.
- The edit dialog: the pages pass `transaction` and `onClose` to `TransactionDialog`, which declares neither, so editing shows an add form; only the pages' staging state is modelled.
- Console logging, toasts' styling, and the loading spinner; toasts are recorded as messages on the expense page only, because the income page only logs.
- The predictive analytics card, the chat assistant, the login page and the `Dashboard` wrapper: outside the aggregation and filtering logic.
- The fixture array and the category constants of src/data/transactions.ts:1303-1305 (which differ from the lists the screens use); the fixture repeats an id, so ids are never assumed unique.
- Lengths of strings are counted in characters, not UTF-16 code units.
- JavaScript's in-place `sort` of a fresh array is modelled as a function on sequences, which are values; the input list is therefore never reordered.
