/** The expense edit page: the form record, how a loaded expense fills it,
    the one-field updates of its inputs, and which submissions are accepted. */
module ExpenseEdit {
  import opened Wrappers
  import opened JsStrings
  import opened JsNumbers
  import opened BookingTypes
  import opened Ui

  /** The form record; every field is text. */
  datatype ExpenseForm = ExpenseForm(
    description: string,
    amount: string,
    date: string,
    category: string,
    property: string,
    vendor: string,
    notes: string)

  datatype ExpenseField = Description | Amount | Date | Category | Property | Vendor | Notes

  const EmptyForm: ExpenseForm := ExpenseForm("", "", "", "", "", "", "")

  function FieldValue(f: ExpenseForm, field: ExpenseField): string {
    match field
    case Description => f.description
    case Amount => f.amount
    case Date => f.date
    case Category => f.category
    case Property => f.property
    case Vendor => f.vendor
    case Notes => f.notes
  }

  /** `{ ...prev, [name]: value }`: the named field takes the value and
      every other field keeps its own. */
  function WithField(f: ExpenseForm, field: ExpenseField, value: string): (g: ExpenseForm)
    ensures FieldValue(g, field) == value
    ensures forall other :: other != field ==> FieldValue(g, other) == FieldValue(f, other)
  {
    match field
    case Description => f.(description := value)
    case Amount => f.(amount := value)
    case Date => f.(date := value)
    case Category => f.(category := value)
    case Property => f.(property := value)
    case Vendor => f.(vendor := value)
    case Notes => f.(notes := value)
  }

  /** The load effect: the amount as its `toString` text, and a missing
      vendor or notes as the empty string. */
  function LoadedForm(e: Expense): (f: ExpenseForm)
    ensures f.description == e.description && f.date == e.date && f.category == e.category && f.property == e.property
    ensures f.amount != ""
    ensures f.vendor == e.vendor
    ensures f.notes == (if e.notes.Some? then e.notes.value else "")
  {
    ExpenseForm(e.description, NumberText(e.amount), e.date, e.category, e.property,
                StringOr(e.vendor, ""), StringOr(e.notes.GetOr(""), ""))
  }

  /** A whole amount is loaded as text that reads back as the same amount. */
  lemma LoadedAmountReadsBack(e: Expense, i: int)
    requires e.amount == i as real
    ensures ParseFloat(LoadedForm(e).amount) == Some(e.amount)
  {
    ParseNumberText(i);
  }

  /** The required-field test of `handleSubmit`: a description that is not
      blank, and a non-empty amount, date, category and property. */
  predicate IsValid(f: ExpenseForm) {
    Trim(f.description) != "" && f.amount != "" && f.date != "" && f.category != "" && f.property != ""
  }

  predicate Blank(s: string) {
    forall i :: 0 <= i < |s| ==> IsSpace(s[i])
  }

  /** A form is accepted exactly when its description is not all white
      space and the other four required fields are filled in; the vendor and
      the notes never matter. */
  lemma IsValidIff(f: ExpenseForm, vendor: string, notes: string)
    ensures IsValid(f) <==> !Blank(f.description) && f.amount != "" && f.date != "" && f.category != "" && f.property != ""
    ensures IsValid(f) == IsValid(f.(vendor := vendor, notes := notes))
  {
    TrimEmptyIff(f.description);
  }

  /** A loaded expense whose required fields are filled in can be saved
      straight away; the empty initial form cannot. */
  lemma LoadedFormValid(e: Expense)
    requires !Blank(e.description) && e.date != "" && e.category != "" && e.property != ""
    ensures IsValid(LoadedForm(e))
    ensures !IsValid(EmptyForm)
  {
    TrimEmptyIff(e.description);
  }

  datatype SubmitOutcome =
    | Rejected(toast: Toast)
    | Accepted(toast: Toast, navigateTo: string)

  const ValidationError: Toast := Toast("Validation Error", "Please fill in all required fields.", true)
  const ExpenseUpdated: Toast := Toast("Expense updated", "The expense has been updated successfully.", false)

  /** The page for the expense with the given route id. */
  class ExpenseEditPage {
    const id: string
    var formData: ExpenseForm

    constructor(id: string)
      ensures this.id == id && formData == EmptyForm
    {
      this.id := id;
      formData := EmptyForm;
    }

    /** The load effect runs when the expense arrives. */
    method LoadExpense(expense: Option<Expense>)
      modifies this`formData
      ensures expense.None? ==> formData == old(formData)
      ensures expense.Some? ==> formData == LoadedForm(expense.value)
    {
      if expense.Some? {
        formData := LoadedForm(expense.value);
      }
    }

    /** `handleInputChange` and `handleSelectChange`. */
    method HandleChange(field: ExpenseField, value: string)
      modifies this`formData
      ensures formData == WithField(old(formData), field, value)
    {
      formData := WithField(formData, field, value);
    }

    /** `handleSubmit`: a rejected form stays as it is and the page does not
      move; an accepted one leads to the expense's own page. */
    method HandleSubmit() returns (outcome: SubmitOutcome)
      ensures outcome.Rejected? <==> !IsValid(formData)
      ensures outcome.Rejected? ==> outcome.toast.destructive
      ensures outcome.Accepted? ==> outcome.navigateTo == "/expenses/" + id && !outcome.toast.destructive
    {
      if Trim(formData.description) == "" || formData.amount == "" || formData.date == ""
         || formData.category == "" || formData.property == "" {
        return Rejected(ValidationError);
      }
      outcome := Accepted(ExpenseUpdated, "/expenses/" + id);
    }
  }
}
