/**
 The two records the application keeps, and the sums every view takes over them.
 Amounts are exact reals; categories, payment methods and periods are the
 strings the forms submit.
 */
module Records {
  import opened Seqs
  import opened Calendar

  datatype Option<T> = None | Some(value: T)

  datatype Expense = Expense(
    id: string,
    description: string,
    amount: real,
    category: string,
    paymentMethod: string,
    date: Time)

  datatype Budget = Budget(id: string, category: string, amount: real, period: string)

  function AmountOf(e: Expense): real { e.amount }

  function BudgetAmountOf(b: Budget): real { b.amount }

  function CategoryOf(e: Expense): string { e.category }

  /** `expenses.reduce((sum, expense) => sum + expense.amount, 0)`. */
  function Total(es: seq<Expense>): real
  {
    Sum(Map(es, AmountOf))
  }

  /** `expense => expense.category === c`. */
  function InCategory(c: string): Expense -> bool
  {
    (e: Expense) => e.category == c
  }

  /** The amount spent in category `c`: filter by category, then add up. */
  function CategorySpend(es: seq<Expense>, c: string): real
  {
    Total(Filter(es, InCategory(c)))
  }

  /** `expenses.map(expense => expense.category)`. */
  function CategoriesOf(es: seq<Expense>): seq<string>
  {
    Map(es, CategoryOf)
  }

  lemma TotalConcat(a: seq<Expense>, b: seq<Expense>)
    ensures Total(a + b) == Total(a) + Total(b)
  {
    MapConcat(a, b, AmountOf);
    SumConcat(Map(a, AmountOf), Map(b, AmountOf));
  }

  lemma TotalSingleton(e: Expense)
    ensures Total([e]) == e.amount
  {
    SumSingleton(e.amount);
  }

  lemma TotalCons(e: Expense, es: seq<Expense>)
    ensures Total([e] + es) == e.amount + Total(es)
  {
    TotalConcat([e], es);
    TotalSingleton(e);
  }

  lemma TotalSnoc(es: seq<Expense>, e: Expense)
    ensures Total(es + [e]) == Total(es) + e.amount
  {
    TotalConcat(es, [e]);
    TotalSingleton(e);
  }

  /** Filtering, then adding up: an expense in front adds its amount exactly when it passes the filter. */
  lemma TotalFilterCons(e: Expense, es: seq<Expense>, p: Expense -> bool)
    ensures Total(Filter([e] + es, p)) == (if p(e) then e.amount else 0.0) + Total(Filter(es, p))
  {
    FilterCons(e, es, p);
    if p(e) {
      TotalCons(e, Filter(es, p));
    } else {
      assert Filter([e] + es, p) == Filter(es, p);
    }
  }

  /** Adding one expense raises the spend of its own category by its amount and leaves every other category alone. */
  lemma CategorySpendSnoc(es: seq<Expense>, e: Expense, c: string)
    ensures CategorySpend(es + [e], c) == CategorySpend(es, c) + (if e.category == c then e.amount else 0.0)
  {
    FilterConcat(es, [e], InCategory(c));
    assert Filter([e], InCategory(c)) == if e.category == c then [e] else [];
    TotalConcat(Filter(es, InCategory(c)), Filter([e], InCategory(c)));
    if e.category == c { TotalSingleton(e); }
  }

  lemma CategorySpendCons(e: Expense, es: seq<Expense>, c: string)
    ensures CategorySpend([e] + es, c) == (if e.category == c then e.amount else 0.0) + CategorySpend(es, c)
  {
    FilterConcat([e], es, InCategory(c));
    assert Filter([e], InCategory(c)) == if e.category == c then [e] else [];
    TotalConcat(Filter([e], InCategory(c)), Filter(es, InCategory(c)));
    if e.category == c { TotalSingleton(e); }
  }

  lemma CategoriesOfSnoc(es: seq<Expense>, e: Expense)
    ensures CategoriesOf(es + [e]) == CategoriesOf(es) + [e.category]
  {
    MapConcat(es, [e], CategoryOf);
  }

  /** A category none of the expenses carries has nothing spent in it. */
  lemma SpendOfAbsentCategory(es: seq<Expense>, c: string)
    requires c !in CategoriesOf(es)
    ensures CategorySpend(es, c) == 0.0
  {
    forall e | e in es
      ensures e.category != c
    {
      var i :| 0 <= i < |es| && es[i] == e;
      assert CategoriesOf(es)[i] == e.category;
    }
    assert Filter(es, InCategory(c)) == [];
  }
}
