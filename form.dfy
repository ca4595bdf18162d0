/**
 * The entry form (components/TransactionForm.tsx): five fields edited by the
 * user, two type buttons, and a submit that silently ignores an entry without
 * an amount or a description.
 *
 * The three calls the form makes into the browser are parameters here: the
 * constructor receives today's date (`new Date()`), and `HandleSubmit`
 * receives the fresh id (`Math.random`) and the amount parser (`parseFloat`,
 * giving paise).
 */
module Form {
  import opened Wrappers
  import opened Types

  /** The categories the select offers (`CATEGORIES`). */
  const Categories: seq<string> := [
    "Food & Drink", "Rent", "Salary", "Entertainment", "Shopping",
    "Transport", "Utilities", "Healthcare", "Education", "Investment", "Others"
  ]

  class TransactionForm {
    var amount: string
    var description: string
    var category: string
    var txType: TransactionType
    var date: string

    /** The category is always one the select offers. */
    predicate Valid()
      reads this
    {
      category in Categories
    }

    /** The guard of `handleSubmit`: both text fields are non-empty. */
    predicate CanSubmit()
      reads this
    {
      amount != "" && description != ""
    }

    /** A fresh form: empty texts, the first category, EXPENSE, and today's date. */
    constructor (today: string)
      ensures Valid()
      ensures amount == "" && description == ""
      ensures category == "Food & Drink" && txType == EXPENSE && date == today
    {
      amount, description := "", "";
      category, txType, date := Categories[0], EXPENSE, today;
    }

    /*
     * The setters below touch one field each. Only `SetCategory` can affect
     * `Valid()`; the others leave it as it was.
     */

    method SetAmount(text: string)
      modifies this`amount
      ensures amount == text
      ensures Valid() == old(Valid())
    {
      amount := text;
    }

    method SetDescription(text: string)
      modifies this`description
      ensures description == text
      ensures Valid() == old(Valid())
    {
      description := text;
    }

    /** The select: only a listed category can be chosen. */
    method SetCategory(c: string)
      requires c in Categories
      modifies this`category
      ensures Valid() && category == c
    {
      category := c;
    }

    method SetDate(d: string)
      modifies this`date
      ensures date == d
      ensures Valid() == old(Valid())
    {
      date := d;
    }

    /** The "Expense" button. */
    method ChooseExpense()
      modifies this`txType
      ensures txType == EXPENSE
      ensures Valid() == old(Valid())
    {
      txType := EXPENSE;
    }

    /** The "Income" button. */
    method ChooseIncome()
      modifies this`txType
      ensures txType == INCOME
      ensures Valid() == old(Valid())
    {
      txType := INCOME;
    }

    /**
     * `handleSubmit`: with both texts present, emit one transaction built from
     * the fields and clear the two texts; otherwise do nothing at all. A form
     * just submitted can no longer submit, so a second submit is a no-op.
     */
    method HandleSubmit(id: string, parseAmount: string -> int) returns (emitted: Option<Transaction>)
      requires Valid()
      modifies this`amount, this`description
      ensures Valid()
      ensures emitted.Some? <==> old(CanSubmit())
      ensures emitted.Some? ==> emitted.value == Transaction(
        id, parseAmount(old(amount)), category, old(description), date, txType)
      ensures emitted.Some? ==> emitted.value.category in Categories
      ensures emitted.Some? ==> amount == "" && description == "" && !CanSubmit()
      ensures emitted.None? ==> amount == old(amount) && description == old(description)
    {
      if amount == "" || description == "" {
        return None;
      }
      emitted := Some(Transaction(id, parseAmount(amount), category, description, date, txType));
      amount := "";
      description := "";
    }
  }

  /**
   * Two submits in a row emit at most one transaction: the second one always
   * finds the form unable to submit. Afterwards the texts are cleared exactly
   * when the first submit emitted, and the other fields are as they were.
   */
  method SubmitTwice(form: TransactionForm, id1: string, id2: string, parseAmount: string -> int)
    returns (first: Option<Transaction>, second: Option<Transaction>)
    requires form.Valid()
    modifies form
    ensures second.None?
    ensures first.Some? <==> old(form.CanSubmit())
    ensures first.Some? ==> first.value == Transaction(
      id1, parseAmount(old(form.amount)), old(form.category), old(form.description), old(form.date), old(form.txType))
    ensures first.Some? ==> form.amount == "" && form.description == ""
    ensures first.None? ==> form.amount == old(form.amount) && form.description == old(form.description)
    ensures form.category == old(form.category) && form.txType == old(form.txType) && form.date == old(form.date)
    ensures form.Valid()
  {
    first := form.HandleSubmit(id1, parseAmount);
    second := form.HandleSubmit(id2, parseAmount);
  }
}
