/**
 * The financial aggregator of the local edition (`useFinancials`): every
 * figure is derived from the five persisted fields of the store.
 */
module Financials {
  import opened Wrappers
  import opened Collections
  import opened Categories
  import opened Domain
  import opened Numbers

  function FixedAmount(e: FixedExpense): real { e.amount }
  function FixedIsActive(e: FixedExpense): bool { e.isActive }
  function TemporaryAmount(e: TemporaryExpense): real { e.amount }
  function ExpenseAmount(e: Expense): real { e.amount }
  function ExpenseCategory(e: Expense): Category { e.category }

  /** The period test of an installment expense on the month index. */
  function DueIn(month: int, year: int): TemporaryExpense -> bool {
    (e: TemporaryExpense) =>
      var startDate := e.startYear * 12 + e.startMonth;
      var endDate := e.endYear * 12 + e.endMonth;
      var currentDate := year * 12 + month;
      currentDate >= startDate && currentDate <= endDate
  }

  function InMonth(month: int, year: int): Expense -> bool {
    (e: Expense) => e.month == month && e.year == year
  }

  function LeisureInMonth(month: int, year: int): Expense -> bool {
    (e: Expense) => e.month == month && e.year == year && e.category == Lazer
  }

  /** `getTotalIncome`: 0 without a profile, otherwise salary plus other income. */
  function TotalIncome(s: PersistedState): real {
    if s.profile.None? then 0.0 else s.profile.value.salary + s.profile.value.otherIncome
  }

  /** `getTotalFixedExpenses`: the total of the active fixed expenses. */
  function TotalFixed(s: PersistedState): real {
    Sum(Filter(s.fixedExpenses, FixedIsActive), FixedAmount)
  }

  /** `getTemporaryExpensesForMonth`: the total of the installments due in (month, year). */
  function TemporaryForMonth(s: PersistedState, month: int, year: int): real {
    Sum(Filter(s.temporaryExpenses, DueIn(month, year)), TemporaryAmount)
  }

  /** `getVariableExpensesForMonth`. */
  function VariableForMonth(s: PersistedState, month: int, year: int): real {
    Sum(Filter(s.expenses, InMonth(month, year)), ExpenseAmount)
  }

  /** `getLeisureExpensesForMonth`: the variable expenses of (month, year) in category `lazer`. */
  function LeisureForMonth(s: PersistedState, month: int, year: int): real {
    Sum(Filter(s.expenses, LeisureInMonth(month, year)), ExpenseAmount)
  }

  /** The record `getExpensesByCategory` returns. */
  function ByCategorySpec(s: PersistedState, month: int, year: int): map<Category, real> {
    Totals(Filter(s.expenses, InMonth(month, year)), ExpenseCategory, ExpenseAmount)
  }

  /** `getExpensesByCategory`: adds each expense of the month to its category's running total. */
  method ExpensesByCategory(s: PersistedState, month: int, year: int) returns (byCategory: map<Category, real>)
    ensures byCategory == ByCategorySpec(s, month, year)
  {
    var monthExpenses := Filter(s.expenses, InMonth(month, year));
    byCategory := AccumulateByCategory(monthExpenses);
  }

  /** The `forEach` of `getExpensesByCategory` over the month's expenses. */
  method AccumulateByCategory(monthExpenses: seq<Expense>) returns (byCategory: map<Category, real>)
    ensures byCategory == Totals(monthExpenses, ExpenseCategory, ExpenseAmount)
  {
    byCategory := map[];
    var i := 0;
    while i < |monthExpenses|
      invariant 0 <= i <= |monthExpenses|
      invariant byCategory == Totals(monthExpenses[..i], ExpenseCategory, ExpenseAmount)
    {
      var expense := monthExpenses[i];
      assert monthExpenses[..i + 1] == monthExpenses[..i] + [expense];
      TotalsSnoc(monthExpenses[..i], expense, ExpenseCategory, ExpenseAmount);
      byCategory := byCategory[expense.category := TotalOf(byCategory, expense.category) + expense.amount];
      i := i + 1;
    }
    assert monthExpenses[..i] == monthExpenses;
  }

  function SavingsGoalOf(s: PersistedState): real {
    if s.profile.None? then 0.0 else s.profile.value.savingsGoal
  }

  function LeisureBudgetOf(s: PersistedState): real {
    if s.profile.None? then 0.0 else s.profile.value.leisureBudget
  }

  /** `getMonthlyBalance`. */
  function MonthlyBalance(s: PersistedState, month: int, year: int): real {
    TotalIncome(s) - TotalFixed(s) - TemporaryForMonth(s, month, year) - VariableForMonth(s, month, year)
  }

  /** `getAvailableForMonth`: what is left before variable spending. */
  function AvailableForMonth(s: PersistedState, month: int, year: int): real {
    TotalIncome(s) - TotalFixed(s) - TemporaryForMonth(s, month, year)
  }

  /** `getAfterSavingsGoal`: subtracts the profile's goal, never a monthly override. */
  function AfterSavingsGoal(s: PersistedState, month: int, year: int): real {
    AvailableForMonth(s, month, year) - SavingsGoalOf(s)
  }

  /** `getAnnualProjection`. */
  function AnnualProjection(s: PersistedState): real {
    SavingsGoalOf(s) * 12.0
  }

  /** `monthlyGoals.find(...)`: the first goal of (month, year). */
  function FindGoal(goals: seq<MonthlyGoal>, month: int, year: int): (r: Option<MonthlyGoal>)
    ensures r.None? <==> forall i :: 0 <= i < |goals| ==> !(goals[i].month == month && goals[i].year == year)
    ensures r.Some? ==> exists i :: 0 <= i < |goals| && goals[i] == r.value &&
                          r.value.month == month && r.value.year == year &&
                          forall j :: 0 <= j < i ==> !(goals[j].month == month && goals[j].year == year)
    decreases |goals|
  {
    if goals == [] then None
    else if goals[0].month == month && goals[0].year == year then Some(goals[0])
    else
      var rest := FindGoal(goals[1..], month, year);
      if rest.Some? then
        var i :| 0 <= i < |goals[1..]| && goals[1..][i] == rest.value &&
                 rest.value.month == month && rest.value.year == year &&
                 forall j :: 0 <= j < i ==> !(goals[1..][j].month == month && goals[1..][j].year == year);
        assert goals[i + 1] == rest.value;
        assert forall j :: 0 <= j < i + 1 ==> !(goals[j].month == month && goals[j].year == year) by {
          forall j | 0 <= j < i + 1 ensures !(goals[j].month == month && goals[j].year == year) {
            if j > 0 {
              assert goals[j] == goals[1..][j - 1];
            }
          }
        }
        rest
      else
        rest
  }

  /** `getMonthlyGoal`: the first matching goal's target, else the profile's goal, else 0. */
  function MonthlyGoalFor(s: PersistedState, month: int, year: int): real {
    match FindGoal(s.monthlyGoals, month, year)
    case Some(goal) => goal.targetAmount
    case None => SavingsGoalOf(s)
  }

  /** `getRemainingLeisureBudget`; negative once the budget is overspent. */
  function RemainingLeisure(s: PersistedState, month: int, year: int): real {
    LeisureBudgetOf(s) - LeisureForMonth(s, month, year)
  }

  /** `getLeisureBudgetPercentage`: 0 for a zero budget, otherwise the spent share capped at 100. */
  function LeisurePercentage(s: PersistedState, month: int, year: int): (r: real)
    ensures LeisureBudgetOf(s) == 0.0 ==> r == 0.0
    ensures r <= 100.0
    ensures LeisureBudgetOf(s) > 0.0 && LeisureForMonth(s, month, year) >= LeisureBudgetOf(s) ==> r == 100.0
    ensures LeisureBudgetOf(s) > 0.0 && LeisureForMonth(s, month, year) >= 0.0 ==> r >= 0.0
  {
    var budget := LeisureBudgetOf(s);
    if budget == 0.0 then 0.0
    else
      var share := LeisureForMonth(s, month, year) / budget * 100.0;
      assert budget > 0.0 && LeisureForMonth(s, month, year) >= budget ==> share >= 100.0 by {
        if budget > 0.0 && LeisureForMonth(s, month, year) >= budget {
          QuotientAtLeast(LeisureForMonth(s, month, year), budget, 1.0);
        }
      }
      if share < 100.0 then share else 100.0
  }

  /** `getCurrentMonthStats`. */
  datatype MonthStats = MonthStats(
    income: real, fixedExpenses: real, temporaryExpenses: real, variableExpenses: real,
    leisureExpenses: real, balance: real, available: real, savingsGoal: real,
    leisureBudget: real, leisureRemaining: real, leisurePercentage: real)

  /** `getCurrentMonthStats` for the current (month, year), which is passed in. */
  function CurrentMonthStats(s: PersistedState, month: int, year: int): MonthStats {
    MonthStats(
      TotalIncome(s), TotalFixed(s), TemporaryForMonth(s, month, year), VariableForMonth(s, month, year),
      LeisureForMonth(s, month, year), MonthlyBalance(s, month, year), AvailableForMonth(s, month, year),
      MonthlyGoalFor(s, month, year), LeisureBudgetOf(s), RemainingLeisure(s, month, year),
      LeisurePercentage(s, month, year))
  }

  datatype MonthSummary = MonthSummary(month: int, income: real, expenses: real, balance: real, goal: real)

  datatype AnnualSummary = AnnualSummary(
    year: int, totalIncome: real, totalExpenses: real, totalSaved: real,
    averageMonthlyExpenses: real, averageMonthlySaved: real, monthlyData: seq<MonthSummary>)

  function EntryIncome(e: MonthSummary): real { e.income }
  function EntryExpenses(e: MonthSummary): real { e.expenses }
  function EntryBalance(e: MonthSummary): real { e.balance }

  /** The entry of one month in the annual summary. */
  function MonthEntry(s: PersistedState, month: int, year: int): MonthSummary {
    var expenses := TotalFixed(s) + TemporaryForMonth(s, month, year) + VariableForMonth(s, month, year);
    MonthSummary(month, TotalIncome(s), expenses, TotalIncome(s) - expenses, MonthlyGoalFor(s, month, year))
  }

  /**
   * `getAnnualSummary`: one entry per month 1..12 in order, each with the
   * month's balance and goal; the totals are the sums of the entries, the
   * income total is twelve times the income and the savings total is income
   * minus expenses.
   */
  method GetAnnualSummary(s: PersistedState, year: int) returns (r: AnnualSummary)
    ensures r.year == year && |r.monthlyData| == 12
    ensures forall i :: 0 <= i < 12 ==> r.monthlyData[i] == MonthEntry(s, i + 1, year)
    ensures r.totalIncome == 12.0 * TotalIncome(s)
    ensures r.totalExpenses == Sum(r.monthlyData, EntryExpenses)
    ensures r.totalSaved == Sum(r.monthlyData, EntryBalance)
    ensures r.totalSaved == r.totalIncome - r.totalExpenses
    ensures r.averageMonthlyExpenses * 12.0 == r.totalExpenses
    ensures r.averageMonthlySaved * 12.0 == r.totalSaved
  {
    var totalIncome := 0.0;
    var totalExpenses := 0.0;
    var totalSaved := 0.0;
    var monthlyData: seq<MonthSummary> := [];
    var month := 1;
    while month <= 12
      invariant 1 <= month <= 13
      invariant |monthlyData| == month - 1
      invariant forall i :: 0 <= i < month - 1 ==> monthlyData[i] == MonthEntry(s, i + 1, year)
      invariant totalIncome == Sum(monthlyData, EntryIncome)
      invariant totalExpenses == Sum(monthlyData, EntryExpenses)
      invariant totalSaved == Sum(monthlyData, EntryBalance)
    {
      var income := TotalIncome(s);
      var fixed := TotalFixed(s);
      var temporary := TemporaryForMonth(s, month, year);
      var variable := VariableForMonth(s, month, year);
      var expenses := fixed + temporary + variable;
      var balance := income - expenses;
      totalIncome := totalIncome + income;
      totalExpenses := totalExpenses + expenses;
      totalSaved := totalSaved + balance;
      var entry := MonthSummary(month, income, expenses, balance, MonthlyGoalFor(s, month, year));
      assert entry == MonthEntry(s, month, year);
      SumSnoc(monthlyData, entry, EntryIncome);
      SumSnoc(monthlyData, entry, EntryExpenses);
      SumSnoc(monthlyData, entry, EntryBalance);
      monthlyData := monthlyData + [entry];
      month := month + 1;
    }
    assert |monthlyData| == 12;
    assert forall i :: 0 <= i < 12 ==>
      (monthlyData[i].income == TotalIncome(s) && monthlyData[i].balance == monthlyData[i].income - monthlyData[i].expenses) by {
      forall i | 0 <= i < 12
        ensures monthlyData[i].income == TotalIncome(s) && monthlyData[i].balance == monthlyData[i].income - monthlyData[i].expenses
      {
        MonthEntryFields(s, i + 1, year);
      }
    }
    EntriesTotals(monthlyData, TotalIncome(s));
    assert totalIncome == 12.0 * TotalIncome(s);
    r := AnnualSummary(year, totalIncome, totalExpenses, totalSaved, totalExpenses / 12.0, totalSaved / 12.0, monthlyData);
  }

  /**
   * Over entries that all carry the same income and whose balance is income
   * minus expenses, the income total is the count times the income and the
   * balance total is the income total minus the expense total.
   */
  lemma {:induction false} EntriesTotals(entries: seq<MonthSummary>, income: real)
    requires forall i :: 0 <= i < |entries| ==> entries[i].income == income
    requires forall i :: 0 <= i < |entries| ==> entries[i].balance == entries[i].income - entries[i].expenses
    ensures Sum(entries, EntryIncome) == |entries| as real * income
    ensures Sum(entries, EntryBalance) == Sum(entries, EntryIncome) - Sum(entries, EntryExpenses)
    decreases |entries|
  {
    if entries != [] {
      EntriesTotals(entries[1..], income);
      assert |entries| as real * income == income + (|entries| - 1) as real * income;
    }
  }

  /**
   * A month's entry carries that month, the income, the fixed, installment and
   * variable spending of the month, its balance and its goal (with overrides).
   */
  lemma {:induction false} MonthEntryFields(s: PersistedState, month: int, year: int)
    ensures var e := MonthEntry(s, month, year);
      e.month == month && e.income == TotalIncome(s) &&
      e.expenses == TotalFixed(s) + TemporaryForMonth(s, month, year) + VariableForMonth(s, month, year) &&
      e.balance == MonthlyBalance(s, month, year) && e.goal == MonthlyGoalFor(s, month, year)
  {
  }

  /** The fixed total counts exactly the active expenses: inactive ones contribute 0. */
  lemma {:induction false} FixedTotalIsActiveShare(s: PersistedState)
    ensures TotalFixed(s) == Sum(s.fixedExpenses, Masked(FixedIsActive, FixedAmount))
  {
    SumFilterMasked(s.fixedExpenses, FixedIsActive, FixedAmount);
  }

  /**
   * An installment contributes to (month, year) exactly when the month index
   * lies in its inclusive period; one that ends before it starts never does.
   */
  lemma {:induction false} TemporaryTotalIsDueShare(s: PersistedState, month: int, year: int, e: TemporaryExpense)
    ensures TemporaryForMonth(s, month, year) == Sum(s.temporaryExpenses, Masked(DueIn(month, year), TemporaryAmount))
    ensures DueIn(month, year)(e) <==>
              MonthIndex(e.startMonth, e.startYear) <= MonthIndex(month, year) <= MonthIndex(e.endMonth, e.endYear)
    ensures MonthIndex(e.startMonth, e.startYear) > MonthIndex(e.endMonth, e.endYear) ==> !DueIn(month, year)(e)
  {
    SumFilterMasked(s.temporaryExpenses, DueIn(month, year), TemporaryAmount);
  }

  /** The leisure total is the variable total of category `lazer`, hence at most the variable total when amounts are non-negative. */
  lemma {:induction false} LeisureWithinVariable(s: PersistedState, month: int, year: int)
    ensures LeisureForMonth(s, month, year) == TotalOf(ByCategorySpec(s, month, year), Lazer)
    ensures (forall e :: e in s.expenses ==> e.amount >= 0.0) ==>
              LeisureForMonth(s, month, year) <= VariableForMonth(s, month, year)
  {
    var monthExpenses := Filter(s.expenses, InMonth(month, year));
    TotalsValue(monthExpenses, ExpenseCategory, ExpenseAmount, Lazer);
    forall e: Expense
      ensures LeisureInMonth(month, year)(e) == (InMonth(month, year)(e) && InCategory(ExpenseCategory, Lazer)(e))
    {
      assert InCategory(ExpenseCategory, Lazer)(e) == (ExpenseCategory(e) == Lazer);
    }
    FilterFilter(s.expenses, InMonth(month, year), InCategory(ExpenseCategory, Lazer), LeisureInMonth(month, year));
    if forall e :: e in s.expenses ==> e.amount >= 0.0 {
      SumFilterMonotone(s.expenses, ExpenseAmount, InMonth(month, year), LeisureInMonth(month, year));
    }
  }

  /** The per-category values sum to the month's variable total, and each key is the category of some expense of that month. */
  lemma {:induction false} ByCategoryMatchesVariable(s: PersistedState, month: int, year: int, c: Category)
    ensures ValueSum(ByCategorySpec(s, month, year)) == VariableForMonth(s, month, year)
    ensures c in ByCategorySpec(s, month, year) <==>
              exists i :: 0 <= i < |s.expenses| && s.expenses[i].month == month &&
                          s.expenses[i].year == year && s.expenses[i].category == c
  {
    var es := s.expenses;
    var monthExpenses := Filter(es, InMonth(month, year));
    TotalsSumToTotal(monthExpenses, ExpenseCategory, ExpenseAmount);
    MonthKeys(es, month, year, c);
  }

  /** A category has a per-category entry exactly when some expense of the month has it. */
  lemma {:induction false} MonthKeys(es: seq<Expense>, month: int, year: int, c: Category)
    ensures c in Totals(Filter(es, InMonth(month, year)), ExpenseCategory, ExpenseAmount) <==>
              exists i :: 0 <= i < |es| && es[i].month == month && es[i].year == year && es[i].category == c
  {
    TotalsKeysFiltered(es, InMonth(month, year), ExpenseCategory, ExpenseAmount, c);
  }

  /**
   * Balance is what is available minus the variable spending; the amount
   * after the savings goal ignores monthly goal overrides.
   */
  lemma {:induction false} BalanceRelations(s: PersistedState, month: int, year: int, goals: seq<MonthlyGoal>)
    ensures MonthlyBalance(s, month, year) == AvailableForMonth(s, month, year) - VariableForMonth(s, month, year)
    ensures AfterSavingsGoal(s.(monthlyGoals := goals), month, year) == AfterSavingsGoal(s, month, year)
    ensures TotalIncome(s) == 0.0 || s.profile.Some?
  {
  }

  /** The monthly goal is the first override's target when one exists, else the profile's goal, else 0. */
  lemma {:induction false} MonthlyGoalSources(s: PersistedState, month: int, year: int)
    ensures (exists i :: 0 <= i < |s.monthlyGoals| && s.monthlyGoals[i].month == month && s.monthlyGoals[i].year == year) ==>
      exists i :: 0 <= i < |s.monthlyGoals| && MonthlyGoalFor(s, month, year) == s.monthlyGoals[i].targetAmount &&
                  s.monthlyGoals[i].month == month && s.monthlyGoals[i].year == year &&
                  forall j :: 0 <= j < i ==> !(s.monthlyGoals[j].month == month && s.monthlyGoals[j].year == year)
    ensures (forall i :: 0 <= i < |s.monthlyGoals| ==> !(s.monthlyGoals[i].month == month && s.monthlyGoals[i].year == year)) ==>
      MonthlyGoalFor(s, month, year) == (if s.profile.Some? then s.profile.value.savingsGoal else 0.0)
  {
  }

  /** The annual projection of the savings goal is 12 times the profile's goal (0 without a profile). */
  lemma {:induction false} ProjectionIsTwelveGoals(s: PersistedState)
    ensures AnnualProjection(s) == 12.0 * SavingsGoalOf(s)
    ensures s.profile.None? ==> AnnualProjection(s) == 0.0
  {
  }
}
