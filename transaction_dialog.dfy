/** The add dialog (src/components/TransactionDialog.tsx): its form, the
    submit guard, the record it sends and the reset that follows. The remote
    `addTransaction` call is recorded in `addCalls`. Form fields hold the raw
    text of the inputs; turning the amount text into a number is not part of
    this model, so the record carries the text. */
module TransactionDialog {
  import opened Records
  import opened ListFilters

  datatype FormData = FormData(
    date: string,
    category: string,
    description: string,
    amount: string,
    paymentMethod: string)

  /** The record handed to `addTransaction`. */
  datatype NewTransaction = NewTransaction(
    date: string,
    kind: TxType,
    category: string,
    description: string,
    amountText: string,
    paymentMethod: string)

  /** The initial and the reset form: today's date, every other field empty. */
  function EmptyForm(today: string): (f: FormData)
    ensures f.date == today
    ensures f.category == "" && f.description == "" && f.amount == "" && f.paymentMethod == ""
  {
    FormData(today, "", "", "", "")
  }

  /** The guard of `handleSubmit`: category, amount and payment method must
      be non-empty. The handler does not check the date or the description. */
  predicate CanSubmit(f: FormData)
  {
    f.category != "" && f.amount != "" && f.paymentMethod != ""
  }

  /** The description never decides whether a form can be submitted. */
  lemma DescriptionDoesNotBlock(f: FormData, description: string)
    ensures CanSubmit(f.(description := description)) <==> CanSubmit(f)
  {
  }

  /** A freshly reset form cannot be submitted again as it is. */
  lemma ResetFormIsRefused(today: string)
    ensures !CanSubmit(EmptyForm(today))
  {
  }

  /** The categories the dialog offers: the income list for an income
      dialog, the expense list otherwise. */
  function CategoriesFor(kind: TxType): (r: seq<string>)
    ensures kind == Income ==> r == IncomeCategories
    ensures kind == Expense ==> r == ExpenseCategories
  {
    if kind == Income then IncomeCategories else ExpenseCategories
  }

  /** The two lists share no category, so the offered list tells the
      dialog's type apart. */
  lemma CategoryListsAreDisjoint()
    ensures forall c :: c in IncomeCategories ==> c !in ExpenseCategories
  {
  }

  class TransactionDialog {
    const kind: TxType
    var open: bool
    var form: FormData
    var addCalls: seq<NewTransaction>

    constructor(kind: TxType, today: string)
      ensures this.kind == kind && !open && form == EmptyForm(today) && addCalls == []
    {
      this.kind := kind;
      open := false;
      form := EmptyForm(today);
      addCalls := [];
    }

    /** The dialog's `onOpenChange`. */
    method SetOpen(b: bool)
      modifies this
      ensures open == b && form == old(form) && addCalls == old(addCalls)
    {
      open := b;
    }

    /** An input's `onChange`: one field of the form replaced. */
    method SetForm(f: FormData)
      modifies this
      ensures form == f && open == old(open) && addCalls == old(addCalls)
    {
      form := f;
    }

    /** `handleSubmit`. A form that fails the guard changes nothing. Otherwise
        exactly one record is sent, of the dialog's type and with the form's
        fields, and then the form is reset to `today` and the dialog closes. */
    method Submit(today: string)
      modifies this
      ensures !CanSubmit(old(form)) ==> open == old(open) && form == old(form) && addCalls == old(addCalls)
      ensures CanSubmit(old(form)) ==>
        && |addCalls| == |old(addCalls)| + 1
        && addCalls[..|old(addCalls)|] == old(addCalls)
        && addCalls[|old(addCalls)|].kind == kind
        && addCalls[|old(addCalls)|].date == old(form).date
        && addCalls[|old(addCalls)|].category == old(form).category
        && addCalls[|old(addCalls)|].description == old(form).description
        && addCalls[|old(addCalls)|].amountText == old(form).amount
        && addCalls[|old(addCalls)|].paymentMethod == old(form).paymentMethod
        && form == EmptyForm(today) && !open
    {
      if !CanSubmit(form) {
        return;
      }
      addCalls := addCalls + [NewTransaction(form.date, kind, form.category, form.description, form.amount, form.paymentMethod)];
      form := EmptyForm(today);
      open := false;
    }
  }
}
