# Expense tracker: the record store and the computations behind its screens

This project models the data side of a small React expense tracker. It covers five things:

- The application component keeps two lists in state, expenses and budgets, and changes them only through five handlers: add, delete, add budget, update budget, delete budget.
- The budget screen works out a spend, a remaining amount, a percentage and a good/warning/over status for each budget. Its form either creates a budget or updates the one being edited.
- The dashboard takes the current month's expenses and computes from them a total, a per-category breakdown, pie-chart shares, budget-against-actual rows (with a warning icon, a bar width and a bar colour) and the average daily spend. Its seven-day trend is computed from all expenses, of any month.
- The transaction list lists the distinct categories, applies a search and category filter, sorts by date, amount or category, and shows the total.
- The expense form refuses a submit while any of its three required fields is empty.

The modules follow the components:

| module | file | what |
|---|---|---|
| `Seqs` | `seqs.dfy` | `filter`, `map`, the numeric `reduce`, `[...new Set(..)]`, subsequences |
| `JsNumber` | `js_number.dfy` | division with JavaScript's `NaN` and `Infinity` results, `* 100`, `>`, `Math.min` |
| `Calendar` | `calendar.dfy` | timestamps, calendar days, the month window around "now" |
| `Records` | `records.dfy` | the `Expense` and `Budget` records, totals, per-category spend |
| `Store` | `store.dfy` | the `RecordStore` class and its five handlers |
| `BudgetManager` | `budget_manager.dfy` | `getBudgetStatus`, the budget form class |
| `Dashboard` | `dashboard.dfy` | every value the dashboard computes |
| `Transactions` | `transactions.dfy` | categories, the filter, the stable sort, the total |
| `ExpenseForm` | `expense_form.dfy` | the submit guard of the expense form |

Amounts are exact reals. A timestamp is an integer count of milliseconds on the local wall clock, so a calendar day is `t / 86400000`. The clock value the components read (`new Date()` together with date-fns' `startOfMonth`/`endOfMonth`) is a `Clock` parameter. Ids and timestamps a handler would read from the clock are parameters too.

The budget screen and the dashboard disagree about which expenses count against a budget. In `src/components/BudgetManager.jsx:63-65` the screen sums every expense of the category, of any date. The dashboard sums only the current month's expenses. A budget's period is never consulted. The model follows the code. `Dashboard.SpendSplitsByMonth` splits the first sum into the two parts. `Dashboard.EarlierMonthCountsOnlyOnBudgetScreen` gives a concrete budget that one screen shows as over while the other shows it as good.

## Model

| member | source | states |
|---|---|---|
| Seqs.Filter | src/App.jsx:32 | the result keeps exactly the elements that pass the predicate, never grows the list, and is the input itself when all pass, empty when none pass |
| Seqs.FilterMultiset | src/App.jsx:32 | filtering keeps every copy of an element that passes and no copy of one that fails |
| Seqs.FilterIsSubsequence | src/App.jsx:32 | the elements filtering keeps stay in their original relative order |
| Seqs.FilterConcat | src/components/TransactionList.jsx:14-17 | filtering distributes over concatenation |
| Seqs.Map | src/App.jsx:44-46 | the result has the input's length and element `i` is the function applied to input element `i` |
| Seqs.SumConcat | src/components/Dashboard.jsx:20 | the sum of a concatenation is the sum of the parts |
| Seqs.SumUpdate | src/components/Dashboard.jsx:26 | replacing one element changes the sum by exactly the difference |
| Seqs.Dedup | src/components/TransactionList.jsx:11 | a `Set` of the list has no duplicates and holds exactly the list's elements |
| Seqs.DedupSnoc | src/components/TransactionList.jsx:11 | inserting an element the `Set` already holds changes nothing; a new element goes last |
| Seqs.DedupFirstOccurrenceOrder | src/components/TransactionList.jsx:11 | the `Set` lists the distinct elements in the order of their first occurrence |
| JsNumber.Div | src/components/BudgetManager.jsx:67 | a non-zero divisor gives the quotient; a zero divisor gives `Infinity`, `-Infinity` or `NaN` by the dividend's sign |
| JsNumber.MinWith | src/components/BudgetManager.jsx:73 | `Math.min(n, k)` is never above `k`, is `NaN` exactly when `n` is, and never compares greater than `k`; a finite `n` gives the smaller of `n` and `k`, `Infinity` gives `k` and `-Infinity` stays |
| Calendar.DaysBack | src/components/Dashboard.jsx:38-39 | stepping `i` days back from a timestamp lands on the calendar day `i` earlier |
| Calendar.Clock.DayOfMonth | src/components/Dashboard.jsx:119 | `getDate()` of a valid clock lies between 1 and 31 |
| Records.Total | src/components/Dashboard.jsx:20 | the sum of the amounts; its properties are stated by `Records.TotalConcat`, `Records.TotalFilterCons` and `Transactions.TotalSort` |
| Records.CategorySpend | src/components/BudgetManager.jsx:63-65 | the total of the category's expenses; stated by `Records.CategorySpendSnoc`, `Records.CategorySpendCons` and `Records.SpendOfAbsentCategory` |
| Records.TotalConcat | src/components/Dashboard.jsx:20 | the total of two lists put together is the sum of their totals |
| Records.TotalFilterCons | src/components/BudgetManager.jsx:63-65 | an expense in front adds its amount to a filtered total exactly when it passes the filter |
| Records.CategorySpendSnoc | src/components/BudgetManager.jsx:63-65 | one more expense raises its own category's spend by its amount and leaves other categories alone |
| Records.CategorySpendCons | src/components/BudgetManager.jsx:63-65 | the same for an expense put in front, as `addExpense` does |
| Records.SpendOfAbsentCategory | src/components/BudgetManager.jsx:63-65 | a category no expense carries has a spend of 0 |
| Store.Merge | src/App.jsx:45 | `{ ...budget, ...updatedBudget }`; stated by `Store.UpdateBudgets` and `Store.UpdateKeepsIds` |
| Store.RemoveExpense | src/App.jsx:31-33 | no survivor has the id, every other expense survives with all its copies, nothing new appears, order is kept, and an absent id changes nothing |
| Store.RemoveBudget | src/App.jsx:49-51 | the same for budgets |
| Store.UpdateBudgets | src/App.jsx:43-47 | same length; non-matching budgets unchanged; a matching budget takes each field present in the patch and keeps the others; an absent id changes nothing |
| Store.UpdateKeepsIds | src/App.jsx:43-47 | a patch without an id leaves every budget's id in place |
| Store.UpdateIdempotent | src/App.jsx:43-47 | applying the same patch twice is applying it once |
| Store.RemoveExpenseIdempotent | src/App.jsx:31-33 | deleting twice is deleting once |
| Store.RecordStore.constructor | src/App.jsx:12-13 | both lists start empty |
| Store.RecordStore.AddExpense | src/App.jsx:22-29 | the new expense, with the given id and date and the form's fields, goes in front; the old list follows unchanged; budgets unchanged |
| Store.RecordStore.DeleteExpense | src/App.jsx:31-33 | the expense list becomes `RemoveExpense` of the old one; budgets unchanged |
| Store.RecordStore.AddBudget | src/App.jsx:35-41 | the new budget goes in front of the unchanged old list; expenses unchanged |
| Store.RecordStore.UpdateBudget | src/App.jsx:43-47 | the budget list becomes `UpdateBudgets` of the old one; expenses unchanged |
| Store.RecordStore.DeleteBudget | src/App.jsx:49-51 | the budget list becomes `RemoveBudget` of the old one; expenses unchanged |
| BudgetManager.PercentOf | src/components/BudgetManager.jsx:67 | `(spent / amount) * 100` with JavaScript's results for a zero amount; stated by `BudgetManager.PercentOfPositive` and `BudgetManager.GetBudgetStatus` |
| BudgetManager.Classify | src/components/BudgetManager.jsx:74 | over past 100, warning past 80, good otherwise; stated by `BudgetManager.StatusMonotone` and `BudgetManager.GetBudgetStatus` |
| BudgetManager.PercentOfPositive | src/components/BudgetManager.jsx:67 | for a positive amount the percentage is finite, and it passes 100, 90 and 80 exactly when the spend passes the amount, 90% and 80% of it |
| BudgetManager.GetBudgetStatus | src/components/BudgetManager.jsx:62-76 | spend is the category's spend over all dates; remaining is the amount less the spend, clamped at 0; the percentage shown is `Math.min` of the unclamped one and 100, and the status classifies the unclamped one; for a positive amount the percentage is at most 100 and status is over, warning or good exactly as the spend passes the amount or 80% of it; a zero amount is over exactly when something was spent |
| BudgetManager.StatusMonotone | src/components/BudgetManager.jsx:67-74 | with the amount fixed, more spending never lowers the percentage or the status |
| BudgetManager.AddingExpenseNeverLowersStatus | src/components/BudgetManager.jsx:62-76 | recording a non-negative expense never lowers any positive budget's status |
| BudgetManager.StatusUsesUnclampedPercentage | src/components/BudgetManager.jsx:73-74 | past the amount the shown percentage is 100 while the status is over; the clamped value alone would say warning |
| BudgetManager.Decide | src/components/BudgetManager.jsx:28-40 | nothing happens exactly when the category or the amount is empty; otherwise an update of the edited budget with the form's fields, or else a new budget from them |
| BudgetManager.BudgetForm.constructor | src/components/BudgetManager.jsx:6-12 | the form starts hidden, not editing, with the empty fields and period `monthly` |
| BudgetManager.BudgetForm.Submit | src/components/BudgetManager.jsx:26-44 | the store receives exactly the decided update or add and nothing else; after a real submit the form is cleared, hidden and not editing; an ignored submit changes nothing |
| BudgetManager.BudgetForm.Edit | src/components/BudgetManager.jsx:46-54 | the form shows the budget's fields and remembers the budget |
| BudgetManager.BudgetForm.Cancel | src/components/BudgetManager.jsx:56-60 | the form is hidden, not editing and cleared |
| Transactions.Categories | src/components/TransactionList.jsx:11 | each category appears once, and a string appears exactly when some expense carries it |
| Transactions.CategoriesInFirstOccurrenceOrder | src/components/TransactionList.jsx:11 | the categories are listed in the order of their first occurrence |
| Transactions.IncludesIffOccurs | src/components/TransactionList.jsx:15 | `includes` holds exactly when the term occurs at some position |
| Transactions.IncludesEmpty | src/components/TransactionList.jsx:15 | every string includes the empty string |
| Transactions.MatchesSpec | src/components/TransactionList.jsx:14-17 | an expense passes exactly when its folded description contains the folded term and the category is unset or equal |
| Transactions.FilterWithNothingSelected | src/components/TransactionList.jsx:14-17 | no term and no category keep every expense, in order |
| Transactions.StringCompare | src/components/TransactionList.jsx:21 | the comparison returns -1, 0 or 1 |
| Transactions.StringCompareAntisymmetric | src/components/TransactionList.jsx:21 | swapping the operands negates the result |
| Transactions.StringCompareZero | src/components/TransactionList.jsx:21 | 0 exactly for equal strings |
| Transactions.StringCompareTransitive | src/components/TransactionList.jsx:21 | the order is transitive |
| Transactions.Matches | src/components/TransactionList.jsx:14-17 | the search-and-category predicate; stated by `Transactions.MatchesSpec` |
| Transactions.Compare | src/components/TransactionList.jsx:18-23 | the comparator's sign; stated by `Transactions.CompareAntisymmetric`, `Transactions.CompareTransitive` and `Transactions.SortedMeaning` |
| Transactions.CompareAntisymmetric | src/components/TransactionList.jsx:18-23 | the comparator is antisymmetric for every key |
| Transactions.CompareTransitive | src/components/TransactionList.jsx:18-23 | the comparator is transitive for every key, as a consistent comparator must be |
| Transactions.Insert | src/components/TransactionList.jsx:18-23 | inserting adds exactly the one element |
| Transactions.SortExpenses | src/components/TransactionList.jsx:18-23 | sorting is a permutation |
| Transactions.InsertSorted | src/components/TransactionList.jsx:18-23 | inserting into a sorted list keeps it sorted |
| Transactions.SortExpensesSorted | src/components/TransactionList.jsx:18-23 | the sorted list is ordered by the comparator |
| Transactions.InsertKeepsTies | src/components/TransactionList.jsx:18-23 | inserting places an element in front of every element it ties with and keeps each tie class in its order |
| Transactions.SortExpensesStable | src/components/TransactionList.jsx:18-23 | the sort is stable: elements that compare equal keep their input order |
| Transactions.SortUnknownKeyIsIdentity | src/components/TransactionList.jsx:22 | an unknown key leaves the list as it is |
| Transactions.TotalSort | src/components/TransactionList.jsx:25 | sorting does not change the total |
| Transactions.FilteredExpenses | src/components/TransactionList.jsx:13-23 | filter, then sort; stated by `Transactions.FilteredExpensesSpec` |
| Transactions.TotalAmount | src/components/TransactionList.jsx:25 | the total of the shown list; stated by `Transactions.TotalAmountIgnoresSortKey` |
| Transactions.FilteredExpensesSpec | src/components/TransactionList.jsx:13-23 | the list shown is a permutation of the matching expenses, holds exactly those, is ordered by the key, and keeps ties in input order |
| Transactions.SortedMeaning | src/components/TransactionList.jsx:19-21 | sorted means newest first, largest amount first, or categories in ascending order |
| Transactions.TotalAmountIgnoresSortKey | src/components/TransactionList.jsx:25 | the total shown is the sum over the matching expenses whatever the sort key |
| Transactions.NothingSelectedShowsEverything | src/components/TransactionList.jsx:13-23 | with no filter the list is a permutation of all expenses, and the list itself under an unknown key |
| Transactions.AmountSortScenario | src/components/TransactionList.jsx:20 | two expenses of 10 before one of 5 stay in the order given |
| Dashboard.CurrentMonthExpenses | src/components/Dashboard.jsx:13-18 | exactly the expenses dated from the start to the end of the month, both included, each with all its copies, in list order |
| Dashboard.TotalBudget | src/components/Dashboard.jsx:21 | the sum of the budget amounts; stated by `Dashboard.TotalBudgetCons` |
| Dashboard.TotalBudgetCons | src/components/Dashboard.jsx:21 | a budget added in front raises the total budget by its amount |
| Dashboard.IndexOfCategory | src/components/Dashboard.jsx:26 | the lookup finds an entry with the category or reports that none exists |
| Dashboard.TalliesBumped | src/components/Dashboard.jsx:25-28 | adding an expense into its category's entry keeps the breakdown a correct tally |
| Dashboard.TalliesAppended | src/components/Dashboard.jsx:25-28 | starting a new entry for a new category keeps the breakdown a correct tally |
| Dashboard.Step | src/components/Dashboard.jsx:25-28 | one call of the reducer: bump the category's entry or start a new one; stated by `Dashboard.TalliesBumped` and `Dashboard.TalliesAppended` |
| Dashboard.Breakdown | src/components/Dashboard.jsx:25-28 | the reducer folded over the month; stated by `Dashboard.BreakdownTallies` and `Dashboard.BreakdownCategories` |
| Dashboard.BreakdownTallies | src/components/Dashboard.jsx:25-28 | the breakdown has one entry per category in first-occurrence order, each holding its category's spend, adding up to the month's total |
| Dashboard.CategoryBreakdown | src/components/Dashboard.jsx:25-28 | the loop builds the breakdown, which tallies the month |
| Dashboard.BreakdownCategories | src/components/Dashboard.jsx:25-28 | no category has two entries, and the entries are exactly the categories that occur |
| Dashboard.PieData | src/components/Dashboard.jsx:30-34 | one slice per breakdown entry, with its name and value |
| Dashboard.PieSliceShare | src/components/Dashboard.jsx:33 | against a non-zero total each slice's percentage is finite and is its value's share of the total |
| Dashboard.PieSharesSumTo100 | src/components/Dashboard.jsx:30-34 | when the breakdown adds up to a non-zero total, the slices' percentages add up to 100 |
| Dashboard.WeekOf | src/components/Dashboard.jsx:37-49 | seven days, oldest first, ending today |
| Dashboard.WeeklyData | src/components/Dashboard.jsx:37-49 | the loop yields the seven days ending today, each with the spend of that day over all expenses |
| Dashboard.DaySpend | src/components/Dashboard.jsx:41-43 | the total of the expenses dated on the day; stated by `Dashboard.QuietDayIsZero`, `Dashboard.DaySpendCons` and `Dashboard.WeeklyData` |
| Dashboard.QuietDayIsZero | src/components/Dashboard.jsx:40-42 | a day with nothing dated on it shows 0 |
| Dashboard.DaySpendCons | src/components/Dashboard.jsx:40-42 | a new expense adds its amount to its own day only |
| Dashboard.SpendTodayShowsLast | src/components/Dashboard.jsx:37-49 | a single expense made today shows in the last bar only |
| Dashboard.BudgetComparison | src/components/Dashboard.jsx:52-63 | one row per budget with its category, its amount, the month's spend in the category and the unclamped percentage |
| Dashboard.ShowsWarning | src/components/Dashboard.jsx:211 | `item.percentage > 90`; stated by `Dashboard.ComparisonIndicators` |
| Dashboard.BarWidth | src/components/Dashboard.jsx:222 | `Math.min(item.percentage, 100)`; stated by `Dashboard.ComparisonIndicators` |
| Dashboard.BarTone | src/components/Dashboard.jsx:218-220 | danger past 100, warning past 80, success otherwise; stated by `Dashboard.ComparisonIndicators` and `Dashboard.ToneAgreesWithinMonth` |
| Dashboard.ComparisonIndicators | src/components/Dashboard.jsx:211-222 | for a positive amount: the warning icon shows exactly past 90% of the amount, the bar width is finite and at most 100, and the colour is danger past the amount and success up to 80% of it |
| Dashboard.SpendSplitsByMonth | src/components/BudgetManager.jsx:63-65 | the budget screen's spend is the dashboard's current-month spend plus the spend dated outside the month |
| Dashboard.ToneAgreesWithinMonth | src/components/Dashboard.jsx:52-63 | when every expense falls in the current month, the dashboard's spend and colour equal the budget screen's spend and status |
| Dashboard.EarlierMonthCountsOnlyOnBudgetScreen | src/components/BudgetManager.jsx:63-65 | a budget of 100 with 120 spent last month is over on the budget screen and good on the dashboard |
| Dashboard.AverageDailySpend | src/components/Dashboard.jsx:119 | the average times the day of the month is the month's total, and a non-negative total bounds it from above |
| Dashboard.Summarize | src/components/Dashboard.jsx:12-63 | the view's parts are the month filter, its total, the budget total, their difference, the tallying breakdown, pie slices summing to 100 for a non-zero total, the week, the comparison rows and the average |
| ExpenseForm.EntryForm.constructor | src/components/ExpenseForm.jsx:6-11 | the form starts empty with payment method `card` |
| ExpenseForm.EntryForm.Submit | src/components/ExpenseForm.jsx:32-47 | an expense is added exactly when description, amount and category are all filled in; it carries the form's fields and parsed amount; the form is then cleared; otherwise nothing changes |

## Left out

- Rendering, animation, tabs, icons, colours as CSS classes and the `useEffect` that loads mock data are not modelled. `src/utils/mockData.js` is not part of this model.
- Floating point is not modelled: amounts and percentages are exact reals, so rounding, `-0` and `toFixed(1)` (the pie's and the bar's one-decimal strings) are left out. Only the `NaN` and `Infinity` results of dividing by zero are kept.
- `parseFloat` of the typed amount is a parameter of the two submit methods. A text that parses to `NaN` is therefore not modelled.
- `Date.now()` ids and `new Date().toISOString()` dates are parameters. ISO-string parsing and time zones are not modelled: a timestamp is already local wall-clock milliseconds.
- date-fns' `startOfMonth` and `endOfMonth`, and the built-in `Date.prototype.getDate`, are replaced by the `Clock` input and its validity predicate. The weekday label `format(date, 'EEE')` is left out; the weekly rows carry the day number.
- `toLowerCase` folds ASCII letters only. `localeCompare` is modelled as lexicographic order of Unicode code points, not locale collation.
- `Array.prototype.sort` is modelled by a stable insertion sort. ECMAScript requires a stable sort, so the order it promises is the same; the algorithm is not the engine's.
- The JavaScript object used as an accumulator keeps string keys in insertion order. Keys that look like array indices, which JavaScript would order first, are not modelled.
- The `handleChange` keystroke handlers of both forms are not modelled: the form data they build up is the state the submit methods read.
- GetBudgetStatus: for a negative budget amount only the general facts are stated (spend, clamped remaining, the clamped percentage and the status from the unclamped percentage). The status comparisons are proved for a positive or a zero amount only.
- The dashboard reads the clock three times in one render (`src/components/Dashboard.jsx:12`, `:39` and `:119`). The model takes all three to read the same instant, so a render that straddles midnight or the end of a month is not modelled.
