/**
 * The fixed-expense screen of the onboarding wizard
 * (finny/src/components/onboarding/ExpensesStep.tsx): the running total and
 * what is left of the income, the suggestion buttons that add an expense at
 * most once per name (ignoring case), and the custom-expense form.
 */
module ExpensesStep {
  import opened Categories
  import opened Domain
  import opened Text
  import opened Formatters
  import opened OnboardingWizard

  /** `remaining`: the income less the active items' total. */
  function Remaining(items: seq<OnboardingItem>, totalIncome: real): real {
    totalIncome - TotalFixed(items)
  }

  /** An inactive item changes neither the total nor what remains; an active one lowers what remains by its amount. */
  lemma {:induction false} RemainingAfterAdd(items: seq<OnboardingItem>, item: OnboardingItem, totalIncome: real)
    ensures !item.isActive ==> Remaining(items + [item], totalIncome) == Remaining(items, totalIncome)
    ensures item.isActive ==> Remaining(items + [item], totalIncome) == Remaining(items, totalIncome) - item.amount
    ensures Remaining([], totalIncome) == totalIncome
  {
    TotalFixedSnoc(items, item);
    TotalFixedMasked([]);
  }

  /** Some item's name equals `name` once both are lower-cased. */
  predicate HasName(items: seq<OnboardingItem>, name: string) {
    exists i :: 0 <= i < |items| && ToLower(items[i].name) == ToLower(name)
  }

  /** The suggestion button's `isAdded`. */
  predicate IsAdded(items: seq<OnboardingItem>, suggested: Suggestion) {
    HasName(items, suggested.name)
  }

  /** The expense a suggestion stands for, at its suggested amount. */
  function DraftOf(suggested: Suggestion): ExpenseDraft {
    ExpenseDraft(suggested.name, suggested.suggested, suggested.category)
  }

  /** The list after `handleAddSuggested`: unchanged when the name is taken, one active item longer otherwise. */
  function AddSuggested(items: seq<OnboardingItem>, suggested: Suggestion): seq<OnboardingItem> {
    if IsAdded(items, suggested) then items else items + [ItemOf(DraftOf(suggested))]
  }

  /**
   * After `handleAddSuggested` the suggestion is marked added, and adding it
   * again changes nothing; an absent name gets exactly one new item.
   */
  lemma {:induction false} AddSuggestedIdempotent(items: seq<OnboardingItem>, suggested: Suggestion)
    ensures IsAdded(AddSuggested(items, suggested), suggested)
    ensures AddSuggested(AddSuggested(items, suggested), suggested) == AddSuggested(items, suggested)
    ensures !IsAdded(items, suggested) ==> |AddSuggested(items, suggested)| == |items| + 1
    ensures IsAdded(items, suggested) ==> AddSuggested(items, suggested) == items
  {
    var r := AddSuggested(items, suggested);
    if !IsAdded(items, suggested) {
      assert ToLower(r[|items|].name) == ToLower(suggested.name);
    }
  }

  /** A suggestion is marked added after an item of the same name in another case is added by hand. */
  lemma {:induction false} AddedIgnoresCase(items: seq<OnboardingItem>, suggested: Suggestion, item: OnboardingItem)
    requires ToLower(item.name) == ToLower(suggested.name)
    ensures IsAdded(items + [item], suggested)
    ensures IsAdded(items, suggested) ==> IsAdded(items + [item], suggested)
  {
    var r := items + [item];
    assert r[|items|] == item;
    if IsAdded(items, suggested) {
      var i :| 0 <= i < |items| && ToLower(items[i].name) == ToLower(suggested.name);
      assert r[i] == items[i];
    }
  }

  const EmptyName := ""
  const EmptyAmount := ""

  /** The custom-expense form's `showAddNew` and `newExpense` state. */
  class ExpenseForm {
    var showAddNew: bool
    var newName: string
    var newAmount: string
    var newCategory: Category

    /** The form starts closed, empty and in category `outros`. */
    constructor()
      ensures !showAddNew && newName == EmptyName && newAmount == EmptyAmount && newCategory == Outros
    {
      showAddNew := false;
      newName := EmptyName;
      newAmount := EmptyAmount;
      newCategory := Outros;
    }

    /** `handleAddSuggested`: adds the suggestion unless an item of that name is already listed. */
    method HandleAddSuggested(wizard: Wizard, suggested: Suggestion)
      modifies wizard
      ensures wizard.data == old(wizard.data).(fixedExpenses := AddSuggested(old(wizard.data.fixedExpenses), suggested))
      ensures wizard.step == old(wizard.step)
    {
      var taken := IsAdded(wizard.data.fixedExpenses, suggested);
      if !taken {
        wizard.AddExpense(DraftOf(suggested));
      }
    }

    /**
     * `handleAddCustom`: with a name and an amount typed in, adds the
     * expense at the parsed amount and clears and closes the form; otherwise
     * nothing changes.
     */
    method HandleAddCustom(wizard: Wizard)
      modifies this, wizard
      ensures old(newName) != "" && old(newAmount) != "" ==>
        wizard.data == old(wizard.data).(fixedExpenses := old(wizard.data.fixedExpenses) +
          [ItemOf(ExpenseDraft(old(newName), ParseInputToNumber(old(newAmount)), old(newCategory)))]) &&
        !showAddNew && newName == EmptyName && newAmount == EmptyAmount && newCategory == Outros
      ensures !(old(newName) != "" && old(newAmount) != "") ==>
        wizard.data == old(wizard.data) && showAddNew == old(showAddNew) && newName == old(newName) &&
        newAmount == old(newAmount) && newCategory == old(newCategory)
      ensures wizard.step == old(wizard.step)
    {
      if newName != "" && newAmount != "" {
        wizard.AddExpense(ExpenseDraft(newName, ParseInputToNumber(newAmount), newCategory));
        newName := EmptyName;
        newAmount := EmptyAmount;
        newCategory := Outros;
        showAddNew := false;
      }
    }
  }
}
