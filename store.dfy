/**
 The record store of the application component: two state cells, the expense
 list and the budget list, and the five handlers that replace them. The id and
 the timestamp a handler would read from the clock are parameters.
 */
module Store {
  import opened Seqs
  import opened Calendar
  import opened Records

  /** What the expense form submits. */
  datatype ExpenseInput = ExpenseInput(description: string, amount: real, category: string, paymentMethod: string)

  /** What the budget form submits when it creates a budget. */
  datatype BudgetInput = BudgetInput(category: string, amount: real, period: string)

  /** The fields an update supplies; an absent field keeps the budget's own value. */
  datatype BudgetPatch = BudgetPatch(id: Option<string>, category: Option<string>, amount: Option<real>, period: Option<string>)

  /** `{ ...expense, id, date }`. */
  function NewExpense(input: ExpenseInput, id: string, date: Time): Expense
  {
    Expense(id, input.description, input.amount, input.category, input.paymentMethod, date)
  }

  /** `{ ...budget, id }`. */
  function NewBudget(input: BudgetInput, id: string): Budget
  {
    Budget(id, input.category, input.amount, input.period)
  }

  /** `{ ...budget, ...patch }`. */
  function Merge(b: Budget, p: BudgetPatch): Budget
  {
    Budget(
      if p.id.Some? then p.id.value else b.id,
      if p.category.Some? then p.category.value else b.category,
      if p.amount.Some? then p.amount.value else b.amount,
      if p.period.Some? then p.period.value else b.period)
  }

  function ExpenseIdIsNot(id: string): Expense -> bool
  {
    (e: Expense) => e.id != id
  }

  function BudgetIdIsNot(id: string): Budget -> bool
  {
    (b: Budget) => b.id != id
  }

  function BudgetIdOf(b: Budget): string { b.id }

  /** `prev.filter(expense => expense.id !== id)`. */
  function RemoveExpense(es: seq<Expense>, id: string): (r: seq<Expense>)
    ensures forall e :: e in r ==> e.id != id
    ensures forall e :: e in es && e.id != id ==> e in r
    ensures forall e :: e in r ==> e in es
    ensures forall e :: multiset(r)[e] == if e.id != id then multiset(es)[e] else 0
    ensures IsSubsequence(r, es)
    ensures (forall e :: e in es ==> e.id != id) ==> r == es
  {
    FilterIsSubsequence(es, ExpenseIdIsNot(id));
    FilterMultiset(es, ExpenseIdIsNot(id));
    Filter(es, ExpenseIdIsNot(id))
  }

  /** `prev.filter(budget => budget.id !== id)`. */
  function RemoveBudget(bs: seq<Budget>, id: string): (r: seq<Budget>)
    ensures forall b :: b in r ==> b.id != id
    ensures forall b :: b in bs && b.id != id ==> b in r
    ensures forall b :: b in r ==> b in bs
    ensures forall b :: multiset(r)[b] == if b.id != id then multiset(bs)[b] else 0
    ensures IsSubsequence(r, bs)
    ensures (forall b :: b in bs ==> b.id != id) ==> r == bs
  {
    FilterIsSubsequence(bs, BudgetIdIsNot(id));
    FilterMultiset(bs, BudgetIdIsNot(id));
    Filter(bs, BudgetIdIsNot(id))
  }

  /** The mapping function of `updateBudget`: merge the patch into a budget whose id matches. */
  function UpdateIfMatching(id: string, p: BudgetPatch): Budget -> Budget
  {
    (b: Budget) => if b.id == id then Merge(b, p) else b
  }

  /** `prev.map(budget => budget.id === id ? { ...budget, ...patch } : budget)`. */
  function UpdateBudgets(bs: seq<Budget>, id: string, p: BudgetPatch): (r: seq<Budget>)
    ensures |r| == |bs|
    ensures forall i :: 0 <= i < |bs| && bs[i].id != id ==> r[i] == bs[i]
    ensures forall i :: 0 <= i < |bs| && bs[i].id == id ==>
      && r[i].id == (if p.id.Some? then p.id.value else id)
      && r[i].category == (if p.category.Some? then p.category.value else bs[i].category)
      && r[i].amount == (if p.amount.Some? then p.amount.value else bs[i].amount)
      && r[i].period == (if p.period.Some? then p.period.value else bs[i].period)
    ensures (forall b :: b in bs ==> b.id != id) ==> r == bs
  {
    Map(bs, UpdateIfMatching(id, p))
  }

  /** A patch without an id, as the budget form sends, leaves every budget id where it was. */
  lemma UpdateKeepsIds(bs: seq<Budget>, id: string, p: BudgetPatch)
    requires p.id.None?
    ensures Map(UpdateBudgets(bs, id, p), BudgetIdOf) == Map(bs, BudgetIdOf)
  {
  }

  /** Applying the same id-free patch twice is the same as applying it once. */
  lemma UpdateIdempotent(bs: seq<Budget>, id: string, p: BudgetPatch)
    requires p.id.None? || p.id == Some(id)
    ensures UpdateBudgets(UpdateBudgets(bs, id, p), id, p) == UpdateBudgets(bs, id, p)
  {
    var once := UpdateBudgets(bs, id, p);
    var twice := UpdateBudgets(once, id, p);
    forall i | 0 <= i < |bs|
      ensures twice[i] == once[i]
    {
      if bs[i].id == id {
        assert once[i].id == id;
      }
    }
  }

  /** Deleting twice is deleting once. */
  lemma RemoveExpenseIdempotent(es: seq<Expense>, id: string)
    ensures RemoveExpense(RemoveExpense(es, id), id) == RemoveExpense(es, id)
  {
  }

  /** The state of the application component: the two lists its handlers replace. */
  class RecordStore {
    var expenses: seq<Expense>
    var budgets: seq<Budget>

    /** `useState([])` for both cells. */
    constructor ()
      ensures expenses == [] && budgets == []
    {
      expenses := [];
      budgets := [];
    }

    /** `addExpense`: the new record goes in front; every older expense stays, unchanged and in order. */
    method AddExpense(input: ExpenseInput, id: string, date: Time)
      modifies this
      ensures expenses == [NewExpense(input, id, date)] + old(expenses)
      ensures |expenses| == |old(expenses)| + 1
      ensures expenses[0].id == id && expenses[0].date == date
      ensures expenses[0].description == input.description && expenses[0].amount == input.amount
      ensures expenses[0].category == input.category && expenses[0].paymentMethod == input.paymentMethod
      ensures expenses[1..] == old(expenses)
      ensures budgets == old(budgets)
    {
      expenses := [NewExpense(input, id, date)] + expenses;
    }

    /** `deleteExpense`: drops every expense carrying the id. */
    method DeleteExpense(id: string)
      modifies this
      ensures expenses == RemoveExpense(old(expenses), id)
      ensures forall e :: e in expenses ==> e.id != id && e in old(expenses)
      ensures budgets == old(budgets)
    {
      expenses := RemoveExpense(expenses, id);
    }

    /** `addBudget`: the new budget goes in front of the old list. */
    method AddBudget(input: BudgetInput, id: string)
      modifies this
      ensures budgets == [NewBudget(input, id)] + old(budgets)
      ensures budgets[1..] == old(budgets)
      ensures expenses == old(expenses)
    {
      budgets := [NewBudget(input, id)] + budgets;
    }

    /** `updateBudget`: merges the patch into every budget whose id matches. */
    method UpdateBudget(id: string, p: BudgetPatch)
      modifies this
      ensures budgets == UpdateBudgets(old(budgets), id, p)
      ensures expenses == old(expenses)
    {
      budgets := UpdateBudgets(budgets, id, p);
    }

    /** `deleteBudget`: drops every budget carrying the id. */
    method DeleteBudget(id: string)
      modifies this
      ensures budgets == RemoveBudget(old(budgets), id)
      ensures forall b :: b in budgets ==> b.id != id && b in old(budgets)
      ensures expenses == old(expenses)
    {
      budgets := RemoveBudget(budgets, id);
    }
  }
}
