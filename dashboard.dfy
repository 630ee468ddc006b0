/**
 The dashboard: everything it shows is computed from the expense list, the
 budget list and the clock. The totals, the category breakdown and the budget
 comparison look at the current month only; the weekly trend looks at every
 expense.
 */
module Dashboard {
  import opened Seqs
  import opened JsNumber
  import opened Calendar
  import opened Records
  import opened BudgetManager

  /** `isWithinInterval(new Date(expense.date), { start: monthStart, end: monthEnd })`. */
  function InMonth(clock: Clock): Expense -> bool
  {
    (e: Expense) => clock.InMonth(e.date)
  }

  function OutsideMonth(clock: Clock): Expense -> bool
  {
    (e: Expense) => !clock.InMonth(e.date)
  }

  /** `currentMonthExpenses`: the expenses dated inside the month of `now`, in list order. */
  function CurrentMonthExpenses(expenses: seq<Expense>, clock: Clock): (r: seq<Expense>)
    ensures forall e :: e in r <==> e in expenses && clock.monthStart <= e.date <= clock.monthEnd
    ensures forall e :: multiset(r)[e] == if clock.InMonth(e.date) then multiset(expenses)[e] else 0
    ensures IsSubsequence(r, expenses)
    ensures (forall e :: e in expenses ==> clock.InMonth(e.date)) ==> r == expenses
  {
    FilterIsSubsequence(expenses, InMonth(clock));
    FilterMultiset(expenses, InMonth(clock));
    Filter(expenses, InMonth(clock))
  }

  /** `totalBudget`: the amounts of all budgets, whatever their period. */
  function TotalBudget(budgets: seq<Budget>): real
  {
    Sum(Map(budgets, BudgetAmountOf))
  }

  /** A budget added in front raises the total budget by exactly its amount. */
  lemma TotalBudgetCons(b: Budget, budgets: seq<Budget>)
    ensures TotalBudget([b] + budgets) == b.amount + TotalBudget(budgets)
  {
    MapConcat([b], budgets, BudgetAmountOf);
    SumConcat(Map([b], BudgetAmountOf), Map(budgets, BudgetAmountOf));
    SumSingleton(b.amount);
  }

  // ---------------------------------------------------------------------------
  // Category breakdown

  /** One entry of the `categoryData` object, in the object's insertion order. */
  datatype CategoryTotal = CategoryTotal(category: string, amount: real)

  function CategoryNameOf(t: CategoryTotal): string { t.category }

  function CategoryAmountOf(t: CategoryTotal): real { t.amount }

  /** Looking up the key `c` of the accumulator: its position, or -1 when it is not there yet. */
  function IndexOfCategory(acc: seq<CategoryTotal>, c: string): (k: int)
    ensures -1 <= k < |acc|
    ensures 0 <= k ==> acc[k].category == c
    ensures k == -1 <==> forall i :: 0 <= i < |acc| ==> acc[i].category != c
  {
    if acc == [] then -1
    else if acc[|acc| - 1].category == c then |acc| - 1
    else IndexOfCategory(acc[..|acc| - 1], c)
  }

  /** One entry per category of `es`, in the order the categories first occur. */
  predicate KeyedLike(acc: seq<CategoryTotal>, es: seq<Expense>)
  {
    Map(acc, CategoryNameOf) == Dedup(CategoriesOf(es))
  }

  /** Each entry holds the spend of its category in `es`. */
  predicate HoldsSpends(acc: seq<CategoryTotal>, es: seq<Expense>)
  {
    forall k :: 0 <= k < |acc| ==> acc[k].amount == CategorySpend(es, acc[k].category)
  }

  /** The entries add up to the total of `es`. */
  predicate AddsUpTo(acc: seq<CategoryTotal>, es: seq<Expense>)
  {
    Sum(Map(acc, CategoryAmountOf)) == Total(es)
  }

  /** `acc` is what the reduce has built after the expenses `es`. */
  predicate Tallies(acc: seq<CategoryTotal>, es: seq<Expense>)
  {
    KeyedLike(acc, es) && HoldsSpends(acc, es) && AddsUpTo(acc, es)
  }

  /** `acc[expense.category] = acc[expense.category] + expense.amount` for a key at position `k`. */
  function Bump(acc: seq<CategoryTotal>, k: nat, e: Expense): seq<CategoryTotal>
    requires k < |acc|
  {
    acc[k := CategoryTotal(e.category, acc[k].amount + e.amount)]
  }

  lemma BumpedKeys(acc: seq<CategoryTotal>, es: seq<Expense>, e: Expense, k: nat)
    requires KeyedLike(acc, es) && k < |acc| && acc[k].category == e.category
    ensures KeyedLike(Bump(acc, k, e), es + [e])
  {
    var names := Map(acc, CategoryNameOf);
    assert names[k] == e.category;
    assert Map(Bump(acc, k, e), CategoryNameOf) == names;
    CategoriesOfSnoc(es, e);
    DedupSnoc(CategoriesOf(es), e.category);
  }

  lemma BumpedSpends(acc: seq<CategoryTotal>, es: seq<Expense>, e: Expense, k: nat)
    requires KeyedLike(acc, es) && HoldsSpends(acc, es) && k < |acc| && acc[k].category == e.category
    ensures HoldsSpends(Bump(acc, k, e), es + [e])
  {
    var acc' := Bump(acc, k, e);
    var names := Map(acc, CategoryNameOf);
    forall j | 0 <= j < |acc'|
      ensures acc'[j].amount == CategorySpend(es + [e], acc'[j].category)
    {
      CategorySpendSnoc(es, e, acc'[j].category);
      if j != k {
        assert names[j] != names[k];
      }
    }
  }

  lemma BumpedSum(acc: seq<CategoryTotal>, es: seq<Expense>, e: Expense, k: nat)
    requires AddsUpTo(acc, es) && k < |acc|
    ensures AddsUpTo(Bump(acc, k, e), es + [e])
  {
    var amounts := Map(acc, CategoryAmountOf);
    var v := acc[k].amount + e.amount;
    var bumped := amounts[k := v];
    forall j | 0 <= j < |acc|
      ensures Map(Bump(acc, k, e), CategoryAmountOf)[j] == bumped[j]
    {
    }
    assert Map(Bump(acc, k, e), CategoryAmountOf) == bumped;
    SumUpdate(amounts, k, v);
    TotalSnoc(es, e);
  }

  /** The step of the reduce for an expense whose category is already a key. */
  lemma TalliesBumped(acc: seq<CategoryTotal>, month: seq<Expense>, i: nat, k: nat)
    requires i < |month| && Tallies(acc, month[..i]) && k < |acc| && acc[k].category == month[i].category
    ensures Tallies(Bump(acc, k, month[i]), month[..i + 1])
  {
    TakeSnoc(month, i);
    BumpedKeys(acc, month[..i], month[i], k);
    BumpedSpends(acc, month[..i], month[i], k);
    BumpedSum(acc, month[..i], month[i], k);
  }

  /** `acc[expense.category] = 0 + expense.amount` for a key not yet present: a new last entry. */
  function Extend(acc: seq<CategoryTotal>, e: Expense): seq<CategoryTotal>
  {
    acc + [CategoryTotal(e.category, e.amount)]
  }

  lemma ExtendedKeys(acc: seq<CategoryTotal>, es: seq<Expense>, e: Expense)
    requires KeyedLike(acc, es) && forall k :: 0 <= k < |acc| ==> acc[k].category != e.category
    ensures KeyedLike(Extend(acc, e), es + [e])
  {
    assert e.category !in Map(acc, CategoryNameOf);
    MapConcat(acc, [CategoryTotal(e.category, e.amount)], CategoryNameOf);
    CategoriesOfSnoc(es, e);
    DedupSnoc(CategoriesOf(es), e.category);
  }

  lemma ExtendedSpends(acc: seq<CategoryTotal>, es: seq<Expense>, e: Expense)
    requires KeyedLike(acc, es) && HoldsSpends(acc, es) && forall k :: 0 <= k < |acc| ==> acc[k].category != e.category
    ensures HoldsSpends(Extend(acc, e), es + [e])
  {
    var acc' := Extend(acc, e);
    assert e.category !in Map(acc, CategoryNameOf);
    SpendOfAbsentCategory(es, e.category);
    forall j | 0 <= j < |acc'|
      ensures acc'[j].amount == CategorySpend(es + [e], acc'[j].category)
    {
      CategorySpendSnoc(es, e, acc'[j].category);
    }
  }

  lemma ExtendedSum(acc: seq<CategoryTotal>, es: seq<Expense>, e: Expense)
    requires AddsUpTo(acc, es)
    ensures AddsUpTo(Extend(acc, e), es + [e])
  {
    MapConcat(acc, [CategoryTotal(e.category, e.amount)], CategoryAmountOf);
    SumSnoc(Map(acc, CategoryAmountOf), e.amount);
    TotalSnoc(es, e);
  }

  /** The step of the reduce for an expense whose category is not a key yet. */
  lemma TalliesAppended(acc: seq<CategoryTotal>, month: seq<Expense>, i: nat)
    requires i < |month| && Tallies(acc, month[..i])
    requires forall k :: 0 <= k < |acc| ==> acc[k].category != month[i].category
    ensures Tallies(Extend(acc, month[i]), month[..i + 1])
  {
    TakeSnoc(month, i);
    ExtendedKeys(acc, month[..i], month[i]);
    ExtendedSpends(acc, month[..i], month[i]);
    ExtendedSum(acc, month[..i], month[i]);
  }

  /** One step of the reduce: add the expense into the entry of its category, or start that entry. */
  function Step(acc: seq<CategoryTotal>, e: Expense): seq<CategoryTotal>
  {
    var k := IndexOfCategory(acc, e.category);
    if 0 <= k then Bump(acc, k, e) else Extend(acc, e)
  }

  /** What the reduce has built after the expenses `es`, one step per expense. */
  function Breakdown(es: seq<Expense>): seq<CategoryTotal>
  {
    if es == [] then [] else Step(Breakdown(es[..|es| - 1]), es[|es| - 1])
  }

  /** The reduce tallies the month: one entry per category, in first-occurrence order, holding that category's spend. */
  lemma {:induction false} BreakdownTallies(es: seq<Expense>)
    ensures Tallies(Breakdown(es), es)
    decreases |es|
  {
    if es != [] {
      var n := |es| - 1;
      BreakdownTallies(es[..n]);
      var acc := Breakdown(es[..n]);
      var k := IndexOfCategory(acc, es[n].category);
      assert es[..n + 1] == es;
      if 0 <= k {
        TalliesBumped(acc, es, n, k);
      } else {
        TalliesAppended(acc, es, n);
      }
    }
  }

  /**
   `categoryData`: the reduce that adds each expense's amount into the entry of
   its category, creating the entry the first time the category is met.
   */
  method CategoryBreakdown(month: seq<Expense>) returns (acc: seq<CategoryTotal>)
    ensures acc == Breakdown(month)
    ensures Tallies(acc, month)
  {
    acc := [];
    var i := 0;
    while i < |month|
      invariant 0 <= i <= |month|
      invariant acc == Breakdown(month[..i])
    {
      TakeSnoc(month, i);
      assert month[..i + 1][..i] == month[..i];
      var k := IndexOfCategory(acc, month[i].category);
      if 0 <= k {
        acc := Bump(acc, k, month[i]);
      } else {
        acc := Extend(acc, month[i]);
      }
      i := i + 1;
    }
    assert month[..i] == month;
    BreakdownTallies(month);
  }

  /** The entries of the breakdown are exactly the categories that occur, each once. */
  lemma BreakdownCategories(acc: seq<CategoryTotal>, month: seq<Expense>)
    requires Map(acc, CategoryNameOf) == Dedup(CategoriesOf(month))
    ensures forall i, j :: 0 <= i < j < |acc| ==> acc[i].category != acc[j].category
    ensures forall c :: c in Map(acc, CategoryNameOf) <==> exists e :: e in month && e.category == c
  {
    var names := Map(acc, CategoryNameOf);
    forall i, j | 0 <= i < j < |acc|
      ensures acc[i].category != acc[j].category
    {
      assert names[i] != names[j];
    }
    forall c | c in names
      ensures exists e :: e in month && e.category == c
    {
      var m :| 0 <= m < |month| && CategoriesOf(month)[m] == c;
      assert month[m] in month;
    }
    forall e | e in month
      ensures e.category in names
    {
      var m :| 0 <= m < |month| && month[m] == e;
      assert CategoriesOf(month)[m] == e.category;
    }
  }

  // ---------------------------------------------------------------------------
  // Pie chart

  /** `{ name, value, percentage }`; the percentage is kept unrounded. */
  datatype PieSlice = PieSlice(name: string, value: real, percentage: Num)

  function SliceOf(totalExpenses: real): CategoryTotal -> PieSlice
  {
    (t: CategoryTotal) => PieSlice(t.category, t.amount, PercentOf(t.amount, totalExpenses))
  }

  /** `pieData`: one slice per breakdown entry, its share of the month's total in percent. */
  function PieData(categoryData: seq<CategoryTotal>, totalExpenses: real): (r: seq<PieSlice>)
    ensures |r| == |categoryData|
    ensures forall i :: 0 <= i < |r| ==> r[i].name == categoryData[i].category && r[i].value == categoryData[i].amount
  {
    Map(categoryData, SliceOf(totalExpenses))
  }

  /** The numeric value of a slice's percentage, 0 for a non-finite one. */
  function ShareOf(s: PieSlice): real
  {
    if s.percentage.Fin? then s.percentage.value else 0.0
  }

  /** Against a non-zero total, every slice's percentage is finite and is its value's share of the total. */
  lemma PieSliceShare(categoryData: seq<CategoryTotal>, totalExpenses: real, i: nat)
    requires totalExpenses != 0.0 && i < |categoryData|
    ensures PieData(categoryData, totalExpenses)[i].percentage.Fin?
    ensures PieData(categoryData, totalExpenses)[i].percentage.value * totalExpenses == categoryData[i].amount * 100.0
  {
    var a := categoryData[i].amount;
    var q := Div(a, totalExpenses).value;
    assert q * totalExpenses == a;
    assert (q * 100.0) * totalExpenses == (q * totalExpenses) * 100.0;
  }

  lemma PieSharesScaled(categoryData: seq<CategoryTotal>, totalExpenses: real)
    requires totalExpenses != 0.0
    ensures Sum(Map(PieData(categoryData, totalExpenses), ShareOf)) * totalExpenses
         == Sum(Map(categoryData, CategoryAmountOf)) * 100.0
  {
    var shares := Map(PieData(categoryData, totalExpenses), ShareOf);
    var amounts := Map(categoryData, CategoryAmountOf);
    forall i | 0 <= i < |shares|
      ensures shares[i] * totalExpenses == amounts[i] * 100.0
    {
      PieSliceShare(categoryData, totalExpenses, i);
    }
    SumScaled(shares, amounts, totalExpenses);
  }

  /** When each share times the total is its amount times 100, so are the sums. */
  lemma {:induction false} SumScaled(xs: seq<real>, ys: seq<real>, t: real)
    requires |xs| == |ys|
    requires forall i :: 0 <= i < |xs| ==> xs[i] * t == ys[i] * 100.0
    ensures Sum(xs) * t == Sum(ys) * 100.0
    decreases |xs|
  {
    if xs != [] {
      var n := |xs| - 1;
      SumScaled(xs[..n], ys[..n], t);
      ScaledSumStep(Sum(xs[..n]), xs[n], Sum(ys[..n]), ys[n], t);
    }
  }

  /** Two scaled equalities add up. */
  lemma ScaledSumStep(a: real, x: real, b: real, y: real, t: real)
    requires a * t == b * 100.0 && x * t == y * 100.0
    ensures (a + x) * t == (b + y) * 100.0
  {
    assert (a + x) * t == a * t + x * t;
  }

  /** When the breakdown adds up to a non-zero total, the pie's percentages add up to 100. */
  lemma PieSharesSumTo100(categoryData: seq<CategoryTotal>, totalExpenses: real)
    requires totalExpenses != 0.0 && Sum(Map(categoryData, CategoryAmountOf)) == totalExpenses
    ensures forall i :: 0 <= i < |categoryData| ==> PieData(categoryData, totalExpenses)[i].percentage.Fin?
    ensures Sum(Map(PieData(categoryData, totalExpenses), ShareOf)) == 100.0
  {
    forall i | 0 <= i < |categoryData|
      ensures PieData(categoryData, totalExpenses)[i].percentage.Fin?
    {
      PieSliceShare(categoryData, totalExpenses, i);
    }
    PieSharesScaled(categoryData, totalExpenses);
    var s := Sum(Map(PieData(categoryData, totalExpenses), ShareOf));
    assert (s - 100.0) * totalExpenses == s * totalExpenses - 100.0 * totalExpenses;
  }

  // ---------------------------------------------------------------------------
  // Weekly trend

  /** One bar of the weekly chart: the calendar day and what was spent on it. */
  datatype DayTotal = DayTotal(day: int, amount: real)

  /** `format(new Date(expense.date), 'yyyy-MM-dd') === format(date, 'yyyy-MM-dd')`. */
  function OnDay(d: int): Expense -> bool
  {
    (e: Expense) => DayOf(e.date) == d
  }

  /** The spend of all expenses, of any month, dated on day `d`. */
  function DaySpend(expenses: seq<Expense>, d: int): real
  {
    Total(Filter(expenses, OnDay(d)))
  }

  /** The seven days ending today, oldest first, each with its spend. */
  function WeekOf(expenses: seq<Expense>, now: Time): (r: seq<DayTotal>)
    ensures |r| == 7
    ensures forall k :: 0 <= k < 7 ==> r[k].day == DayOf(now) - 6 + k
  {
    seq(7, k => DayTotal(DayOf(now) - 6 + k, DaySpend(expenses, DayOf(now) - 6 + k)))
  }

  /** `weeklyData`: the loop from six days ago up to today. */
  method WeeklyData(expenses: seq<Expense>, now: Time) returns (week: seq<DayTotal>)
    ensures week == WeekOf(expenses, now)
  {
    ghost var target := WeekOf(expenses, now);
    week := [];
    var i := 6;
    while i >= 0
      invariant -1 <= i <= 6
      invariant week == target[..6 - i]
    {
      var date := now - i * DayMs;
      var day := DayOf(date);
      DaysBack(now, i);
      var dayExpenses := Total(Filter(expenses, OnDay(day)));
      WeekEntry(expenses, now, i, day);
      TakeSnoc(target, 6 - i);
      week := week + [DayTotal(day, dayExpenses)];
      i := i - 1;
    }
    assert target[..7] == target;
  }

  lemma WeekEntry(expenses: seq<Expense>, now: Time, i: int, day: int)
    requires 0 <= i <= 6 && day == DayOf(now) - i
    ensures WeekOf(expenses, now)[6 - i] == DayTotal(day, DaySpend(expenses, day))
  {
  }

  /** A day on which nothing is dated shows 0. */
  lemma QuietDayIsZero(expenses: seq<Expense>, d: int)
    requires forall e :: e in expenses ==> DayOf(e.date) != d
    ensures DaySpend(expenses, d) == 0.0
  {
    assert Filter(expenses, OnDay(d)) == [];
  }

  /** An expense in front adds its amount to the spend of its own day only. */
  lemma {:induction false} DaySpendCons(e: Expense, expenses: seq<Expense>, d: int)
    ensures DaySpend([e] + expenses, d) == (if DayOf(e.date) == d then e.amount else 0.0) + DaySpend(expenses, d)
  {
    TotalFilterCons(e, expenses, OnDay(d));
  }

  /** A single expense recorded today shows in the last bar only. */
  lemma SpendTodayShowsLast(e: Expense, now: Time)
    requires DayOf(e.date) == DayOf(now)
    ensures WeekOf([e], now)[6] == DayTotal(DayOf(now), e.amount)
    ensures forall k :: 0 <= k < 6 ==> WeekOf([e], now)[k].amount == 0.0
  {
    DaySpendCons(e, [], DayOf(now));
    assert [e] + [] == [e];
    forall k | 0 <= k < 6
      ensures WeekOf([e], now)[k].amount == 0.0
    {
      QuietDayIsZero([e], DayOf(now) - 6 + k);
    }
  }

  // ---------------------------------------------------------------------------
  // Budget against actual

  /** `{ category, budget, actual, percentage }`. */
  datatype Comparison = Comparison(category: string, budget: real, actual: real, percentage: Num)

  function CompareWith(month: seq<Expense>): Budget -> Comparison
  {
    (b: Budget) => Comparison(b.category, b.amount, CategorySpend(month, b.category), PercentOf(CategorySpend(month, b.category), b.amount))
  }

  /** `budgetComparison`: per budget, the month's spend in its category against its amount. */
  function BudgetComparison(budgets: seq<Budget>, month: seq<Expense>): (r: seq<Comparison>)
    ensures |r| == |budgets|
    ensures forall i :: 0 <= i < |r| ==>
      && r[i].category == budgets[i].category
      && r[i].budget == budgets[i].amount
      && r[i].actual == CategorySpend(month, budgets[i].category)
      && r[i].percentage == PercentOf(r[i].actual, r[i].budget)
  {
    Map(budgets, CompareWith(month))
  }

  /** `item.percentage > 90`: the warning icon. */
  predicate ShowsWarning(c: Comparison)
  {
    GreaterThan(c.percentage, 90.0)
  }

  /** `Math.min(item.percentage, 100)`: the width of the bar, in percent. */
  function BarWidth(c: Comparison): Num
  {
    MinWith(c.percentage, 100.0)
  }

  /** The colour of the bar: danger over 100, warning over 80, success otherwise. */
  function BarTone(c: Comparison): Status
  {
    Classify(c.percentage)
  }

  /** For a positive budget amount: the icon shows past 90% of the amount, the bar never passes 100%, and its tone tells over, warning and good apart at the amount and at 80% of it. */
  lemma ComparisonIndicators(budgets: seq<Budget>, month: seq<Expense>, i: nat)
    requires i < |budgets| && budgets[i].amount > 0.0
    ensures ShowsWarning(BudgetComparison(budgets, month)[i]) <==> BudgetComparison(budgets, month)[i].actual > budgets[i].amount * 0.9
    ensures BarWidth(BudgetComparison(budgets, month)[i]).Fin? && BarWidth(BudgetComparison(budgets, month)[i]).value <= 100.0
    ensures BarTone(BudgetComparison(budgets, month)[i]) == Over <==> BudgetComparison(budgets, month)[i].actual > budgets[i].amount
    ensures BarTone(BudgetComparison(budgets, month)[i]) == Good <==> BudgetComparison(budgets, month)[i].actual <= budgets[i].amount * 0.8
  {
    var c := BudgetComparison(budgets, month)[i];
    PercentOfPositive(c.actual, c.budget);
  }

  /** Each category's spend splits into the part dated this month and the part dated outside it. */
  lemma SpendSplitsByMonth(expenses: seq<Expense>, clock: Clock, c: string)
    ensures CategorySpend(expenses, c)
         == CategorySpend(CurrentMonthExpenses(expenses, clock), c) + CategorySpend(Filter(expenses, OutsideMonth(clock)), c)
  {
    assert CurrentMonthExpenses(expenses, clock) == Filter(expenses, InMonth(clock));
    SpendSplitsInTwo(expenses, clock, c);
  }

  /** The split, stated on the two filters. */
  lemma {:induction false} SpendSplitsInTwo(expenses: seq<Expense>, clock: Clock, c: string)
    ensures CategorySpend(expenses, c)
         == CategorySpend(Filter(expenses, InMonth(clock)), c) + CategorySpend(Filter(expenses, OutsideMonth(clock)), c)
  {
    if expenses != [] {
      var e, rest := expenses[0], expenses[1..];
      assert expenses == [e] + rest;
      SpendSplitsInTwo(rest, clock, c);
      SpendSplitStep(e, rest, clock, c);
    }
  }

  lemma SpendSplitStep(e: Expense, rest: seq<Expense>, clock: Clock, c: string)
    requires CategorySpend(rest, c)
          == CategorySpend(Filter(rest, InMonth(clock)), c) + CategorySpend(Filter(rest, OutsideMonth(clock)), c)
    ensures CategorySpend([e] + rest, c)
         == CategorySpend(Filter([e] + rest, InMonth(clock)), c) + CategorySpend(Filter([e] + rest, OutsideMonth(clock)), c)
  {
    var inside, outside := Filter(rest, InMonth(clock)), Filter(rest, OutsideMonth(clock));
    FilterCons(e, rest, InMonth(clock));
    FilterCons(e, rest, OutsideMonth(clock));
    CategorySpendCons(e, rest, c);
    if clock.InMonth(e.date) {
      assert Filter([e] + rest, InMonth(clock)) == [e] + inside;
      assert Filter([e] + rest, OutsideMonth(clock)) == outside;
      CategorySpendCons(e, inside, c);
    } else {
      assert Filter([e] + rest, InMonth(clock)) == inside;
      assert Filter([e] + rest, OutsideMonth(clock)) == [e] + outside;
      CategorySpendCons(e, outside, c);
    }
  }

  /** When every expense is dated this month, the dashboard's tone for a budget is the budget screen's status. */
  lemma ToneAgreesWithinMonth(budgets: seq<Budget>, expenses: seq<Expense>, clock: Clock, i: nat)
    requires i < |budgets| && forall e :: e in expenses ==> clock.InMonth(e.date)
    ensures BudgetComparison(budgets, CurrentMonthExpenses(expenses, clock))[i].actual == GetBudgetStatus(budgets[i], expenses).spent
    ensures BarTone(BudgetComparison(budgets, CurrentMonthExpenses(expenses, clock))[i]) == GetBudgetStatus(budgets[i], expenses).status
  {
    assert CurrentMonthExpenses(expenses, clock) == expenses;
  }

  /** The month from day 31 to day 58: a valid 28-day window. */
  lemma SecondMonthIsValid()
    ensures Clock(31 * DayMs, 31 * DayMs, 59 * DayMs - 1).Valid()
  {
    assert DayOf(59 * DayMs - 1) == 58;
    assert DayOf(31 * DayMs) == 31;
  }

  /** On the budget screen, 120 spent on food last month puts a food budget of 100 over. */
  lemma LastMonthOverOnBudgetScreen()
    ensures GetBudgetStatus(Budget("b1", "Food", 100.0, "monthly"), [Expense("e1", "Lunch", 120.0, "Food", "card", 0)]).status == Over
  {
    var lunch := Expense("e1", "Lunch", 120.0, "Food", "card", 0);
    CategorySpendCons(lunch, [], "Food");
    assert [lunch] + [] == [lunch];
  }

  /** On the dashboard the same expense lies outside the month, so the bar is good. */
  lemma LastMonthGoodOnDashboard()
    ensures BarTone(BudgetComparison([Budget("b1", "Food", 100.0, "monthly")],
      CurrentMonthExpenses([Expense("e1", "Lunch", 120.0, "Food", "card", 0)], Clock(31 * DayMs, 31 * DayMs, 59 * DayMs - 1)))[0]) == Good
  {
    var clock := Clock(31 * DayMs, 31 * DayMs, 59 * DayMs - 1);
    assert CurrentMonthExpenses([Expense("e1", "Lunch", 120.0, "Food", "card", 0)], clock) == [];
    assert CategorySpend([], "Food") == 0.0;
  }

  /** The budget screen counts last month's spending; the dashboard does not. */
  lemma EarlierMonthCountsOnlyOnBudgetScreen()
    ensures var clock := Clock(31 * DayMs, 31 * DayMs, 59 * DayMs - 1);
      var food := Budget("b1", "Food", 100.0, "monthly");
      var lunch := Expense("e1", "Lunch", 120.0, "Food", "card", 0);
      && clock.Valid()
      && GetBudgetStatus(food, [lunch]).status == Over
      && BarTone(BudgetComparison([food], CurrentMonthExpenses([lunch], clock))[0]) == Good
  {
    SecondMonthIsValid();
    LastMonthOverOnBudgetScreen();
    LastMonthGoodOnDashboard();
  }

  // ---------------------------------------------------------------------------
  // The whole view

  lemma ProductNonNegative(x: real, y: real)
    requires 0.0 <= x && 0.0 <= y
    ensures 0.0 <= x * y
  {
  }

  /** `totalExpenses / new Date().getDate()`: the month's spend spread over the days elapsed. */
  function AverageDailySpend(totalExpenses: real, clock: Clock): (r: real)
    requires clock.Valid()
    ensures r * (clock.DayOfMonth() as real) == totalExpenses
    ensures 0.0 <= totalExpenses ==> 0.0 <= r <= totalExpenses
  {
    var d := clock.DayOfMonth() as real;
    var r := totalExpenses / d;
    assert r * d == totalExpenses;
    assert 0.0 <= totalExpenses ==> 0.0 <= r <= totalExpenses by {
      if 0.0 <= totalExpenses {
        assert r >= 0.0;
        assert totalExpenses - r == r * (d - 1.0);
        ProductNonNegative(r, d - 1.0);
      }
    }
    r
  }

  datatype View = View(
    currentMonth: seq<Expense>,
    totalExpenses: real,
    totalBudget: real,
    budgetRemaining: real,
    categoryData: seq<CategoryTotal>,
    pieData: seq<PieSlice>,
    weeklyData: seq<DayTotal>,
    budgetComparison: seq<Comparison>,
    averageDaily: real)

  /** The values the dashboard renders, computed in the order the component computes them. */
  method Summarize(expenses: seq<Expense>, budgets: seq<Budget>, clock: Clock) returns (v: View)
    requires clock.Valid()
    ensures v.currentMonth == CurrentMonthExpenses(expenses, clock)
    ensures v.totalExpenses == Total(v.currentMonth)
    ensures v.totalBudget == TotalBudget(budgets)
    ensures v.budgetRemaining == v.totalBudget - v.totalExpenses
    ensures Tallies(v.categoryData, v.currentMonth)
    ensures v.pieData == PieData(v.categoryData, v.totalExpenses)
    ensures v.totalExpenses != 0.0 ==> Sum(Map(v.pieData, ShareOf)) == 100.0
    ensures v.weeklyData == WeekOf(expenses, clock.now)
    ensures v.budgetComparison == BudgetComparison(budgets, v.currentMonth)
    ensures v.averageDaily == AverageDailySpend(v.totalExpenses, clock)
  {
    var month := CurrentMonthExpenses(expenses, clock);
    var totalExpenses := Total(month);
    var totalBudget := TotalBudget(budgets);
    var categoryData := CategoryBreakdown(month);
    if totalExpenses != 0.0 {
      PieSharesSumTo100(categoryData, totalExpenses);
    }
    var weekly := WeeklyData(expenses, clock.now);
    var averageDaily := AverageDailySpend(totalExpenses, clock);
    v := View(
      month,
      totalExpenses,
      totalBudget,
      totalBudget - totalExpenses,
      categoryData,
      PieData(categoryData, totalExpenses),
      weekly,
      BudgetComparison(budgets, month),
      averageDaily);
  }
}
