/**
 * The "register expense" modal (finny/src/components/expenses/AddExpenseModal.tsx):
 * the form's four fields, the validation that records one message per
 * invalid field, and the submission that stores the expense only when the
 * form is valid. The date input is given already parsed: `None` stands for
 * an empty date field. Fresh ids, the creation time and today's date are
 * parameters.
 */
module AddExpenseModal {
  import opened Wrappers
  import opened Categories
  import opened Domain
  import opened Text
  import opened Formatters
  import opened Store

  /** The keys of the `errors` record. */
  datatype Field = AmountField | DescriptionField | CategoryField | DateField

  const AmountError := "Informe um valor válido"
  const DescriptionError := "Informe uma descrição"
  const CategoryError := "Selecione uma categoria"
  const DateError := "Selecione uma data"

  predicate AmountInvalid(amount: string) {
    amount == "" || ParseInputToNumber(amount) <= 0.0
  }

  predicate DescriptionInvalid(description: string) {
    Trim(description) == ""
  }

  /** The messages `validate` records, keyed by field. */
  function ErrorsOf(amount: string, description: string, category: Option<Category>, date: Option<Date>): map<Field, string> {
    var m0: map<Field, string> := map[];
    var m1 := if AmountInvalid(amount) then m0[AmountField := AmountError] else m0;
    var m2 := if DescriptionInvalid(description) then m1[DescriptionField := DescriptionError] else m1;
    var m3 := if category.None? then m2[CategoryField := CategoryError] else m2;
    if date.None? then m3[DateField := DateError] else m3
  }

  /**
   * A field has a message exactly when it is invalid, and then the message
   * is that field's own; the form is valid exactly when no field is invalid.
   */
  lemma {:induction false} ErrorsExactly(amount: string, description: string, category: Option<Category>, date: Option<Date>)
    ensures var e := ErrorsOf(amount, description, category, date);
      (AmountField in e <==> AmountInvalid(amount)) &&
      (DescriptionField in e <==> DescriptionInvalid(description)) &&
      (CategoryField in e <==> category.None?) &&
      (DateField in e <==> date.None?) &&
      (AmountField in e ==> e[AmountField] == AmountError) &&
      (DescriptionField in e ==> e[DescriptionField] == DescriptionError) &&
      (CategoryField in e ==> e[CategoryField] == CategoryError) &&
      (DateField in e ==> e[DateField] == DateError)
    ensures ErrorsOf(amount, description, category, date) == map[] <==>
      !AmountInvalid(amount) && !DescriptionInvalid(description) && category.Some? && date.Some?
  {
  }

  /** The expense `handleSubmit` builds from a valid form: trimmed description, parsed amount, the date's month and year. */
  function RecordOf(amount: string, description: string, category: Category, date: Date): ExpenseData {
    ExpenseData(Trim(description), ParseInputToNumber(amount), category, date, date.month, date.year)
  }

  /** A record built from a valid form has a positive amount and a description that is not blank. */
  lemma {:induction false} ValidRecord(amount: string, description: string, category: Option<Category>, date: Option<Date>)
    requires ErrorsOf(amount, description, category, date) == map[]
    ensures category.Some? && date.Some?
    ensures var r := RecordOf(amount, description, category.value, date.value);
      r.amount > 0.0 && r.description != "" && r.month == date.value.month && r.year == date.value.year
  {
    ErrorsExactly(amount, description, category, date);
  }

  /** The modal's form state. */
  class Modal {
    var isOpen: bool
    var amount: string
    var description: string
    var category: Option<Category>
    var date: Option<Date>
    var errors: map<Field, string>

    /** A closed modal with an empty form dated today. */
    constructor(today: Date)
      ensures !isOpen && amount == "" && description == "" && category == None && date == Some(today) && errors == map[]
    {
      isOpen := false;
      amount := "";
      description := "";
      category := None;
      date := Some(today);
      errors := map[];
    }

    /** `validate`: records the messages of the invalid fields and says whether there were none. */
    method Validate() returns (valid: bool)
      modifies this
      ensures errors == ErrorsOf(amount, description, category, date)
      ensures valid <==> errors == map[]
      ensures isOpen == old(isOpen) && amount == old(amount) && description == old(description)
      ensures category == old(category) && date == old(date)
    {
      var newErrors: map<Field, string> := map[];
      if AmountInvalid(amount) {
        newErrors := newErrors[AmountField := AmountError];
      }
      if DescriptionInvalid(description) {
        newErrors := newErrors[DescriptionField := DescriptionError];
      }
      if category.None? {
        newErrors := newErrors[CategoryField := CategoryError];
      }
      if date.None? {
        newErrors := newErrors[DateField := DateError];
      }
      errors := newErrors;
      valid := newErrors == map[];
    }

    /** Closing the modal resets the form, dated today. */
    method Close(today: Date)
      modifies this
      ensures !isOpen && amount == "" && description == "" && category == None && date == Some(today) && errors == map[]
    {
      isOpen := false;
      amount := "";
      description := "";
      category := None;
      date := Some(today);
      errors := map[];
    }

    /**
     * `handleSubmit`: an invalid form keeps the modal open with its messages
     * and adds nothing; a valid one appends its record to the store under
     * `newId` and closes the modal.
     */
    method HandleSubmit(store: AppStore, newId: string, now: int, today: Date) returns (added: bool)
      modifies this, store
      ensures added <==> ErrorsOf(old(amount), old(description), old(category), old(date)) == map[]
      ensures !added ==>
        store.State() == old(store.State()) &&
        errors == ErrorsOf(old(amount), old(description), old(category), old(date)) &&
        isOpen == old(isOpen) && amount == old(amount) && description == old(description) &&
        category == old(category) && date == old(date)
      ensures added ==>
        old(category).Some? && old(date).Some? &&
        store.State() == old(store.State()).(expenses := old(store.expenses) +
          [Expense(newId, Trim(old(description)), ParseInputToNumber(old(amount)), old(category).value,
                   old(date).value, old(date).value.month, old(date).value.year, now)]) &&
        !isOpen && amount == "" && description == "" && category == None && date == Some(today) && errors == map[]
    {
      added := Validate();
      if !added {
        return;
      }
      ErrorsExactly(amount, description, category, date);
      store.AddExpense(RecordOf(amount, description, category.value, date.value), newId, now);
      Close(today);
    }
  }
}
