/**
 * The onboarding wizard of src/hooks/useOnboarding.ts: a step counter kept
 * in 1..6, the answers collected so far, an indexed list of fixed expenses,
 * the running totals, and the final save into the application store.
 */
module OnboardingWizard {
  import opened Categories
  import opened Collections
  import opened Domain
  import opened Wrappers
  import Store

  const TotalSteps := 6

  /** One fixed expense entered during onboarding. */
  datatype OnboardingItem = OnboardingItem(name: string, amount: real, category: Category, isActive: bool)

  /** What `addExpense` receives: an item without its `isActive` flag. */
  datatype ExpenseDraft = ExpenseDraft(name: string, amount: real, category: Category)

  /** What `updateExpense` receives: a partial draft. */
  datatype ExpensePatch = ExpensePatch(name: Option<string>, amount: Option<real>, category: Option<Category>)

  /** The wizard's answers. */
  datatype OnboardingData = OnboardingData(
    salary: real,
    otherIncome: real,
    payDay: int,
    hasAdvance: bool,
    advanceDay: int,
    fixedExpenses: seq<OnboardingItem>,
    savingsGoal: real,
    leisureBudget: real)

  const InitialData := OnboardingData(0.0, 0.0, 5, false, 20, [], 0.0, 0.0)

  /** A `Partial<OnboardingData>`. */
  datatype DataUpdate = DataUpdate(
    salary: Option<real>,
    otherIncome: Option<real>,
    payDay: Option<int>,
    hasAdvance: Option<bool>,
    advanceDay: Option<int>,
    fixedExpenses: Option<seq<OnboardingItem>>,
    savingsGoal: Option<real>,
    leisureBudget: Option<real>)

  /** `{ ...prev, ...updates }`. */
  function MergeData(d: OnboardingData, u: DataUpdate): OnboardingData {
    OnboardingData(
      u.salary.GetOr(d.salary),
      u.otherIncome.GetOr(d.otherIncome),
      u.payDay.GetOr(d.payDay),
      u.hasAdvance.GetOr(d.hasAdvance),
      u.advanceDay.GetOr(d.advanceDay),
      u.fixedExpenses.GetOr(d.fixedExpenses),
      u.savingsGoal.GetOr(d.savingsGoal),
      u.leisureBudget.GetOr(d.leisureBudget))
  }

  /** Merging supplies each given field and keeps every other one. */
  lemma {:induction false} MergeDataFields(d: OnboardingData, u: DataUpdate)
    ensures var r := MergeData(d, u);
      (u.salary.Some? ==> r.salary == u.salary.value) && (u.salary.None? ==> r.salary == d.salary) &&
      (u.otherIncome.Some? ==> r.otherIncome == u.otherIncome.value) &&
      (u.otherIncome.None? ==> r.otherIncome == d.otherIncome) &&
      (u.payDay.Some? ==> r.payDay == u.payDay.value) && (u.payDay.None? ==> r.payDay == d.payDay) &&
      (u.hasAdvance.Some? ==> r.hasAdvance == u.hasAdvance.value) &&
      (u.hasAdvance.None? ==> r.hasAdvance == d.hasAdvance) &&
      (u.advanceDay.Some? ==> r.advanceDay == u.advanceDay.value) &&
      (u.advanceDay.None? ==> r.advanceDay == d.advanceDay) &&
      (u.fixedExpenses.Some? ==> r.fixedExpenses == u.fixedExpenses.value) &&
      (u.fixedExpenses.None? ==> r.fixedExpenses == d.fixedExpenses) &&
      (u.savingsGoal.Some? ==> r.savingsGoal == u.savingsGoal.value) &&
      (u.savingsGoal.None? ==> r.savingsGoal == d.savingsGoal) &&
      (u.leisureBudget.Some? ==> r.leisureBudget == u.leisureBudget.value) &&
      (u.leisureBudget.None? ==> r.leisureBudget == d.leisureBudget) &&
      MergeData(r, u) == r
  {
  }

  /** `{ ...expense, isActive: true }`. */
  function ItemOf(e: ExpenseDraft): OnboardingItem {
    OnboardingItem(e.name, e.amount, e.category, true)
  }

  /** `{ ...expense, ...updates }`. */
  function Patched(item: OnboardingItem, p: ExpensePatch): OnboardingItem {
    item.(name := p.name.GetOr(item.name), amount := p.amount.GetOr(item.amount),
          category := p.category.GetOr(item.category))
  }

  /** `items.filter((_, i) => i !== index)`: every item but the one at `index`, in order. */
  function RemoveAt<T>(items: seq<T>, index: int): (r: seq<T>)
    ensures 0 <= index < |items| ==>
      |r| == |items| - 1 &&
      (forall i :: 0 <= i < index ==> r[i] == items[i]) &&
      (forall i :: index <= i < |r| ==> r[i] == items[i + 1])
    ensures !(0 <= index < |items|) ==> r == items
    decreases |items|
  {
    if items == [] then []
    else (if index == 0 then [] else [items[0]]) + RemoveAt(items[1..], index - 1)
  }

  /** `items.map((e, i) => i === index ? f(e) : e)`: only the item at `index` changes. */
  function UpdateAt(items: seq<OnboardingItem>, index: int, p: ExpensePatch): (r: seq<OnboardingItem>)
    ensures |r| == |items|
    ensures forall i :: 0 <= i < |items| && i != index ==> r[i] == items[i]
    ensures 0 <= index < |items| ==> r[index] == Patched(items[index], p)
    decreases |items|
  {
    if items == [] then []
    else [if index == 0 then Patched(items[0], p) else items[0]] + UpdateAt(items[1..], index - 1, p)
  }

  predicate IsActiveItem(item: OnboardingItem) {
    item.isActive
  }

  function ItemAmount(item: OnboardingItem): real {
    item.amount
  }

  /** `getTotalFixedExpenses`: the sum of the active items' amounts. */
  function TotalFixed(items: seq<OnboardingItem>): real {
    Sum(Filter(items, IsActiveItem), ItemAmount)
  }

  /** `getTotalIncome`. */
  function TotalIncome(d: OnboardingData): real {
    d.salary + d.otherIncome
  }

  /** `getAvailableAfterFixed`: income less the active fixed expenses. */
  function AvailableAfterFixed(d: OnboardingData): real {
    TotalIncome(d) - TotalFixed(d.fixedExpenses)
  }

  /** `getAvailableAfterSavings`: what is left once the savings goal is set aside too. */
  function AvailableAfterSavings(d: OnboardingData): real {
    AvailableAfterFixed(d) - d.savingsGoal
  }

  /** The fixed-expense total adds each active item's amount once and ignores the inactive ones. */
  lemma {:induction false} TotalFixedMasked(items: seq<OnboardingItem>)
    ensures TotalFixed(items) == Sum(items, Masked(IsActiveItem, ItemAmount))
    ensures TotalFixed([]) == 0.0
  {
    SumFilterMasked(items, IsActiveItem, ItemAmount);
  }

  /** Adding an item raises the total by its amount when it is active and leaves it otherwise. */
  lemma {:induction false} TotalFixedSnoc(items: seq<OnboardingItem>, item: OnboardingItem)
    ensures TotalFixed(items + [item]) == TotalFixed(items) + (if item.isActive then item.amount else 0.0)
  {
    FilterAppend(items, [item], IsActiveItem);
    var tail := Filter([item], IsActiveItem);
    assert tail == (if item.isActive then [item] else []) + Filter([], IsActiveItem);
    SumAppend(Filter(items, IsActiveItem), tail, ItemAmount);
    if item.isActive {
      assert Sum(tail, ItemAmount) == item.amount + Sum([], ItemAmount);
    }
  }

  /** Removing the item at `index` lowers the total by that item's amount when it was active. */
  lemma {:induction false} TotalFixedRemoveAt(items: seq<OnboardingItem>, index: int)
    requires 0 <= index < |items|
    ensures TotalFixed(RemoveAt(items, index)) ==
              TotalFixed(items) - (if items[index].isActive then items[index].amount else 0.0)
    decreases |items|
  {
    var m := Masked(IsActiveItem, ItemAmount);
    TotalFixedMasked(items);
    TotalFixedMasked(RemoveAt(items, index));
    TotalFixedMasked(items[1..]);
    assert items == [items[0]] + items[1..];
    if index == 0 {
      assert RemoveAt(items, 0) == items[1..];
    } else {
      TotalFixedRemoveAt(items[1..], index - 1);
      TotalFixedMasked(RemoveAt(items[1..], index - 1));
      assert RemoveAt(items, index) == [items[0]] + RemoveAt(items[1..], index - 1);
      assert items[1..][index - 1] == items[index];
    }
  }

  /** The available amount after savings is salary plus other income, less the active fixed total and the goal. */
  lemma {:induction false} AvailableAfterSavingsIs(d: OnboardingData, item: OnboardingItem)
    ensures AvailableAfterSavings(d) == d.salary + d.otherIncome - TotalFixed(d.fixedExpenses) - d.savingsGoal
    ensures AvailableAfterSavings(d.(fixedExpenses := d.fixedExpenses + [item])) ==
              AvailableAfterSavings(d) - (if item.isActive then item.amount else 0.0)
  {
    TotalFixedSnoc(d.fixedExpenses, item);
  }

  /** The profile `completeOnboarding` creates. */
  function ProfileFrom(d: OnboardingData, id: string, now: int): UserProfile {
    UserProfile(id, "Usuário", now, true, d.salary, d.otherIncome, d.payDay, d.hasAdvance,
                d.advanceDay, d.savingsGoal, d.leisureBudget)
  }

  /** The fixed expenses `completeOnboarding` adds, one per item under its fresh id, each keeping its flag. */
  function FixedFrom(items: seq<OnboardingItem>, ids: seq<string>): (r: seq<FixedExpense>)
    requires |ids| == |items|
    ensures |r| == |items|
    ensures forall i :: 0 <= i < |items| ==>
      r[i] == FixedExpense(ids[i], items[i].name, items[i].amount, items[i].category, items[i].isActive)
    decreases |items|
  {
    if items == [] then []
    else [FixedExpense(ids[0], items[0].name, items[0].amount, items[0].category, items[0].isActive)] +
         FixedFrom(items[1..], ids[1..])
  }

  /** One more item and id add one more fixed expense at the end. */
  lemma {:induction false} FixedFromPrefixSnoc(items: seq<OnboardingItem>, ids: seq<string>, k: nat)
    requires |ids| == |items| && k < |items|
    ensures FixedFrom(items[..k + 1], ids[..k + 1]) == FixedFrom(items[..k], ids[..k]) +
      [FixedExpense(ids[k], items[k].name, items[k].amount, items[k].category, items[k].isActive)]
  {
    var a := FixedFrom(items[..k + 1], ids[..k + 1]);
    var b := FixedFrom(items[..k], ids[..k]) +
      [FixedExpense(ids[k], items[k].name, items[k].amount, items[k].category, items[k].isActive)];
    assert |a| == |b|;
    forall i | 0 <= i < |a| ensures a[i] == b[i] {
      assert items[..k + 1][i] == items[i] && ids[..k + 1][i] == ids[i];
      if i < k {
        assert items[..k][i] == items[i] && ids[..k][i] == ids[i];
      }
    }
  }

  /** The wizard's `step` and `data` state. */
  class Wizard {
    var step: int
    var data: OnboardingData

    /** The step is always one of the six screens. */
    predicate Valid()
      reads this
    {
      1 <= step <= TotalSteps
    }

    /** The wizard opens on step 1 with the initial answers. */
    constructor()
      ensures Valid() && step == 1 && data == InitialData
    {
      step := 1;
      data := InitialData;
    }

    /** `nextStep`: one step on, never past the last. */
    method NextStep()
      modifies this
      ensures step == (if old(step) + 1 < TotalSteps then old(step) + 1 else TotalSteps)
      ensures step <= TotalSteps
      ensures old(Valid()) ==> Valid()
      ensures data == old(data)
    {
      step := if step + 1 < TotalSteps then step + 1 else TotalSteps;
    }

    /** `prevStep`: one step back, never before the first. */
    method PrevStep()
      modifies this
      ensures step == (if old(step) - 1 > 1 then old(step) - 1 else 1)
      ensures step >= 1
      ensures old(Valid()) ==> Valid()
      ensures data == old(data)
    {
      step := if step - 1 > 1 then step - 1 else 1;
    }

    /** `goToStep`: moves to `newStep` when it is a screen, and ignores it otherwise. */
    method GoToStep(newStep: int)
      modifies this
      ensures 1 <= newStep <= TotalSteps ==> step == newStep
      ensures !(1 <= newStep <= TotalSteps) ==> step == old(step)
      ensures old(Valid()) ==> Valid()
      ensures data == old(data)
    {
      if newStep >= 1 && newStep <= TotalSteps {
        step := newStep;
      }
    }

    /** `updateData`: merges the given answers over the current ones. */
    method UpdateData(updates: DataUpdate)
      modifies this
      ensures data == MergeData(old(data), updates) && step == old(step)
    {
      data := MergeData(data, updates);
    }

    /** `addExpense`: appends one active item and leaves the others as they were. */
    method AddExpense(expense: ExpenseDraft)
      modifies this
      ensures data == old(data).(fixedExpenses := old(data.fixedExpenses) + [ItemOf(expense)]) && step == old(step)
      ensures TotalFixed(data.fixedExpenses) == old(TotalFixed(data.fixedExpenses)) + expense.amount
    {
      TotalFixedSnoc(data.fixedExpenses, ItemOf(expense));
      data := data.(fixedExpenses := data.fixedExpenses + [ItemOf(expense)]);
    }

    /** `removeExpense`: drops the item at `index`, if there is one. */
    method RemoveExpense(index: int)
      modifies this
      ensures data == old(data).(fixedExpenses := RemoveAt(old(data.fixedExpenses), index)) && step == old(step)
    {
      data := data.(fixedExpenses := RemoveAt(data.fixedExpenses, index));
    }

    /** `updateExpense`: merges `updates` into the item at `index` only. */
    method UpdateExpense(index: int, updates: ExpensePatch)
      modifies this
      ensures data == old(data).(fixedExpenses := UpdateAt(old(data.fixedExpenses), index, updates)) && step == old(step)
    {
      data := data.(fixedExpenses := UpdateAt(data.fixedExpenses, index, updates));
    }

    /**
     * `completeOnboarding`: stores the profile built from the answers, marked
     * as onboarded, then adds one fixed expense per item in order. The
     * profile id, the clock and the expense ids are parameters.
     */
    method CompleteOnboarding(store: Store.AppStore, profileId: string, now: int, ids: seq<string>)
      requires |ids| == |data.fixedExpenses|
      modifies store
      ensures store.State() == old(store.State()).(
        profile := Some(ProfileFrom(data, profileId, now)),
        fixedExpenses := old(store.fixedExpenses) + FixedFrom(data.fixedExpenses, ids))
      ensures store.profile.Some? && store.profile.value.hasCompletedOnboarding
    {
      var items := data.fixedExpenses;
      store.SetProfile(ProfileFrom(data, profileId, now));
      ghost var base := store.State();
      var k := 0;
      while k < |items|
        invariant 0 <= k <= |items|
        invariant store.State() == base.(fixedExpenses := base.fixedExpenses + FixedFrom(items[..k], ids[..k]))
      {
        var item := items[k];
        ghost var before := FixedFrom(items[..k], ids[..k]);
        store.AddFixedExpense(Store.FixedExpenseData(item.name, item.amount, item.category, item.isActive), ids[k]);
        FixedFromPrefixSnoc(items, ids, k);
        assert base.fixedExpenses + before + [FixedExpense(ids[k], item.name, item.amount, item.category, item.isActive)] ==
          base.fixedExpenses + FixedFrom(items[..k + 1], ids[..k + 1]);
        k := k + 1;
      }
      assert items[..k] == items && ids[..k] == ids;
    }
  }
}
