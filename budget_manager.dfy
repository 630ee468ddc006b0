/**
 The budget screen: the status of one budget against the expense list, and the
 form that either creates a budget or updates the one being edited.
 */
module BudgetManager {
  import opened Seqs
  import opened JsNumber
  import opened Records
  import opened Store

  datatype Status = Good | Warning | Over

  /** The order good < warning < over. */
  function Rank(s: Status): nat
  {
    match s
    case Good => 0
    case Warning => 1
    case Over => 2
  }

  /** `percentage > 100 ? 'over' : percentage > 80 ? 'warning' : 'good'`. */
  function Classify(percentage: Num): Status
  {
    if GreaterThan(percentage, 100.0) then Over
    else if GreaterThan(percentage, 80.0) then Warning
    else Good
  }

  /** `(spent / amount) * 100`, before any clamping. */
  function PercentOf(spent: real, amount: real): Num
  {
    Times100(Div(spent, amount))
  }

  datatype BudgetStatus = BudgetStatus(spent: real, remaining: real, percentage: Num, status: Status)

  lemma ProductSign(x: real, y: real)
    requires y > 0.0
    ensures x > 0.0 ==> x * y > 0.0
    ensures x <= 0.0 ==> x * y <= 0.0
  {
  }

  /** When `p * amount == spent * 100` for a positive amount, `p` compares with `k` as `spent * 100` compares with `k * amount`. */
  lemma ScaledCompare(p: real, spent: real, amount: real, k: real)
    requires amount > 0.0 && p * amount == spent * 100.0
    ensures p > k <==> spent * 100.0 > k * amount
  {
    assert (p - k) * amount == p * amount - k * amount;
    ProductSign(p - k, amount);
  }

  /** For a positive budget the unclamped percentage is finite and compares with 100, 90 and 80 as `spent` compares with the amount and with 90% and 80% of it. */
  lemma PercentOfPositive(spent: real, amount: real)
    ensures amount > 0.0 ==>
      && PercentOf(spent, amount).Fin?
      && PercentOf(spent, amount).value * amount == spent * 100.0
      && (PercentOf(spent, amount).value > 100.0 <==> spent > amount)
      && (PercentOf(spent, amount).value > 80.0 <==> spent > amount * 0.8)
      && (PercentOf(spent, amount).value > 90.0 <==> spent > amount * 0.9)
  {
    if amount > 0.0 {
      var q := spent / amount;
      assert q * amount == spent;
      var p := q * 100.0;
      assert p * amount == (q * amount) * 100.0;
      ScaledCompare(p, spent, amount, 100.0);
      ScaledCompare(p, spent, amount, 80.0);
      ScaledCompare(p, spent, amount, 90.0);
    }
  }

  /**
   `getBudgetStatus`: the spend over every expense of the budget's category (of
   any date), the remaining amount clamped at 0, the percentage clamped at 100
   for display, and a status taken from the unclamped percentage. The amount is
   divided by without a guard; a zero amount yields `Infinity` or `NaN`.
   */
  function GetBudgetStatus(budget: Budget, expenses: seq<Expense>): (r: BudgetStatus)
    ensures r.spent == CategorySpend(expenses, budget.category)
    ensures r.remaining >= 0.0
    ensures r.spent <= budget.amount ==> r.spent + r.remaining == budget.amount
    ensures r.spent >= budget.amount ==> r.remaining == 0.0
    ensures budget.amount > 0.0 ==> r.percentage.Fin? && r.percentage.value <= 100.0
    ensures budget.amount > 0.0 && r.spent <= budget.amount ==> r.percentage.value * budget.amount == r.spent * 100.0
    ensures budget.amount > 0.0 && r.spent >= budget.amount ==> r.percentage == Fin(100.0)
    ensures budget.amount > 0.0 ==> (r.status == Over <==> r.spent > budget.amount)
    ensures budget.amount > 0.0 ==> (r.status == Warning <==> budget.amount * 0.8 < r.spent <= budget.amount)
    ensures budget.amount > 0.0 ==> (r.status == Good <==> r.spent <= budget.amount * 0.8)
    ensures budget.amount == 0.0 ==> (r.status == Over <==> r.spent > 0.0)
    ensures budget.amount == 0.0 && r.spent > 0.0 ==> r.percentage == Fin(100.0)
    ensures budget.amount == 0.0 && r.spent == 0.0 ==> r.percentage == NaN && r.status == Good
    ensures r.status == Classify(PercentOf(r.spent, budget.amount))
    ensures r.percentage == MinWith(PercentOf(r.spent, budget.amount), 100.0)
  {
    var spent := CategorySpend(expenses, budget.category);
    var percentage := PercentOf(spent, budget.amount);
    var remaining := budget.amount - spent;
    PercentOfPositive(spent, budget.amount);
    BudgetStatus(
      spent,
      if 0.0 < remaining then remaining else 0.0,
      MinWith(percentage, 100.0),
      Classify(percentage))
  }

  /** With a fixed positive amount, more spending never moves the status down from over to warning to good, nor lowers the percentage. */
  lemma StatusMonotone(spent1: real, spent2: real, amount: real)
    requires amount > 0.0 && spent1 <= spent2
    ensures Rank(Classify(PercentOf(spent1, amount))) <= Rank(Classify(PercentOf(spent2, amount)))
    ensures PercentOf(spent1, amount).value <= PercentOf(spent2, amount).value
  {
    PercentOfPositive(spent1, amount);
    PercentOfPositive(spent2, amount);
    var p1, p2 := PercentOf(spent1, amount).value, PercentOf(spent2, amount).value;
    ScaledCompare(p1, spent1, amount, p2);
  }

  /** Recording a non-negative expense never lowers the status of any budget with a positive amount. */
  lemma AddingExpenseNeverLowersStatus(budget: Budget, expenses: seq<Expense>, e: Expense)
    requires budget.amount > 0.0 && e.amount >= 0.0
    ensures Rank(GetBudgetStatus(budget, expenses).status) <= Rank(GetBudgetStatus(budget, [e] + expenses).status)
  {
    CategorySpendCons(e, expenses, budget.category);
    StatusMonotone(CategorySpend(expenses, budget.category), CategorySpend([e] + expenses, budget.category), budget.amount);
  }

  /** Once spending passes the amount, the displayed percentage reads 100 while the status is over: the status is not read off the clamped value. */
  lemma StatusUsesUnclampedPercentage(budget: Budget, expenses: seq<Expense>)
    requires budget.amount > 0.0 && CategorySpend(expenses, budget.category) > budget.amount
    ensures GetBudgetStatus(budget, expenses).percentage == Fin(100.0)
    ensures GetBudgetStatus(budget, expenses).status == Over
    ensures Classify(GetBudgetStatus(budget, expenses).percentage) == Warning
  {
  }

  /** The form fields: category, the amount as typed, and the period. */
  datatype FormData = FormData(category: string, amountText: string, period: string)

  const EmptyForm := FormData("", "", "monthly")

  /** What a submit does with the store. */
  datatype Action =
    | Ignore
    | Update(id: string, patch: BudgetPatch)
    | Add(input: BudgetInput)

  /**
   The branches of `handleSubmit`: nothing when the category or the amount is
   empty; otherwise an update of the edited budget, or else a new budget.
   `parsedAmount` is the value `parseFloat` returns for the typed amount.
   */
  function Decide(data: FormData, editing: Option<Budget>, parsedAmount: real): (a: Action)
    ensures a == Ignore <==> data.category == "" || data.amountText == ""
    ensures a.Update? <==> data.category != "" && data.amountText != "" && editing.Some?
    ensures a.Update? ==>
      a.id == editing.value.id && a.patch == BudgetPatch(None, Some(data.category), Some(parsedAmount), Some(data.period))
    ensures a.Add? ==> a.input == BudgetInput(data.category, parsedAmount, data.period)
  {
    if data.category == "" || data.amountText == "" then Ignore
    else if editing.Some? then Update(editing.value.id, BudgetPatch(None, Some(data.category), Some(parsedAmount), Some(data.period)))
    else Add(BudgetInput(data.category, parsedAmount, data.period))
  }

  /** The form state of the budget screen. */
  class BudgetForm {
    var showForm: bool
    var editing: Option<Budget>
    var data: FormData

    constructor ()
      ensures !showForm && editing == None && data == EmptyForm
    {
      showForm := false;
      editing := None;
      data := EmptyForm;
    }

    /** `handleSubmit`: exactly one of nothing, one update, or one add reaches the store. */
    method Submit(store: RecordStore, parsedAmount: real, newId: string) returns (action: Action)
      modifies this, store
      ensures action == Decide(old(data), old(editing), parsedAmount)
      ensures store.expenses == old(store.expenses)
      ensures action == Ignore ==>
        store.budgets == old(store.budgets) && data == old(data) && editing == old(editing) && showForm == old(showForm)
      ensures action.Update? ==> store.budgets == UpdateBudgets(old(store.budgets), action.id, action.patch)
      ensures action.Add? ==> store.budgets == [NewBudget(action.input, newId)] + old(store.budgets)
      ensures action != Ignore ==> data == EmptyForm && !showForm && editing == None
    {
      action := Decide(data, editing, parsedAmount);
      if action == Ignore {
        return;
      }
      match action {
        case Update(id, patch) =>
          store.UpdateBudget(id, patch);
          editing := None;
        case Add(input) =>
          store.AddBudget(input, newId);
      }
      data := EmptyForm;
      showForm := false;
    }

    /** `handleEdit`: load a budget into the form. `amountText` is what `budget.amount.toString()` gives. */
    method Edit(budget: Budget, amountText: string)
      modifies this
      ensures editing == Some(budget) && showForm
      ensures data == FormData(budget.category, amountText, budget.period)
    {
      editing := Some(budget);
      data := FormData(budget.category, amountText, budget.period);
      showForm := true;
    }

    /** `handleCancel`. */
    method Cancel()
      modifies this
      ensures !showForm && editing == None && data == EmptyForm
    {
      showForm := false;
      editing := None;
      data := EmptyForm;
    }
  }
}
