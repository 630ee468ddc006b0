/**
 The submit guard of the expense form: an expense reaches the store only when
 its description, amount and category have all been filled in.
 */
module ExpenseForm {
  import opened Calendar
  import opened Store

  /** The form fields; the amount is the text typed into its input. */
  datatype FormData = FormData(description: string, amountText: string, category: string, paymentMethod: string)

  const EmptyForm := FormData("", "", "", "card")

  /** Whether submitting may go ahead. */
  predicate Complete(data: FormData)
  {
    data.description != "" && data.amountText != "" && data.category != ""
  }

  class EntryForm {
    var data: FormData

    constructor ()
      ensures data == EmptyForm
    {
      data := EmptyForm;
    }

    /**
     `handleSubmit`: an incomplete form changes nothing; a complete one adds one
     expense and clears the form. `parsedAmount` is what `parseFloat` returns for
     the typed amount; `id` and `date` stand for the clock readings of `addExpense`.
     */
    method Submit(store: RecordStore, parsedAmount: real, id: string, date: Time) returns (added: bool)
      modifies this, store
      ensures added <==> Complete(old(data))
      ensures store.budgets == old(store.budgets)
      ensures !added ==> store.expenses == old(store.expenses) && data == old(data)
      ensures added ==>
        && store.expenses == [NewExpense(ExpenseInput(old(data).description, parsedAmount, old(data).category, old(data).paymentMethod), id, date)] + old(store.expenses)
        && data == EmptyForm
    {
      added := Complete(data);
      if !added {
        return;
      }
      store.AddExpense(ExpenseInput(data.description, parsedAmount, data.category, data.paymentMethod), id, date);
      data := EmptyForm;
    }
  }
}
