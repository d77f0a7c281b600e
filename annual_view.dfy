/**
 * The annual view (finny/src/pages/AnnualView.tsx): a button per month of
 * the annual summary coloured by the month's status, the months after the
 * current one disabled, and the savings projection. The current month is a
 * parameter.
 */
module AnnualView {
  import opened Wrappers
  import opened Collections
  import opened Domain
  import opened Financials

  /** The three colours of `getMonthStatus`. */
  datatype MonthStatus = GoalMet | Positive | Deficit {
    function Color(): string {
      match this
      case GoalMet => "bg-primary/20 border-primary/30"
      case Positive => "bg-warning/20 border-warning/30"
      case Deficit => "bg-danger/20 border-danger/30"
    }

    function Text(): string {
      match this
      case GoalMet => "text-primary"
      case Positive => "text-warning"
      case Deficit => "text-danger"
    }
  }

  /** `getMonthStatus`: green when the balance covers the goal, amber when it is not negative, red otherwise. */
  function StatusOf(balance: real, goal: real): MonthStatus {
    if balance >= goal then GoalMet
    else if balance >= 0.0 then Positive
    else Deficit
  }

  /** Each status is characterised by the balance alone, and exactly one holds. */
  lemma {:induction false} StatusCases(balance: real, goal: real)
    ensures StatusOf(balance, goal) == GoalMet <==> balance >= goal
    ensures StatusOf(balance, goal) == Positive <==> 0.0 <= balance < goal
    ensures StatusOf(balance, goal) == Deficit <==> balance < 0.0 && balance < goal
    ensures goal <= 0.0 ==> StatusOf(balance, goal) != Positive
  {
  }

  /** A month button: the status shown, or none when the month is still to come, and where a click leads. */
  datatype MonthButton = MonthButton(month: int, status: Option<MonthStatus>, target: Option<int>)

  /** `isFuture`: the month comes after the current calendar month. */
  predicate IsFuture(month: int, currentMonth: int) {
    month > currentMonth
  }

  /** The button of one month: a future month is greyed out and its click does nothing. */
  function ButtonOf(e: MonthSummary, currentMonth: int): MonthButton {
    if IsFuture(e.month, currentMonth) then MonthButton(e.month, None, None)
    else MonthButton(e.month, Some(StatusOf(e.balance, e.goal)), Some(e.month))
  }

  /** The buttons of the monthly breakdown, in the summary's order. */
  function Buttons(data: seq<MonthSummary>, currentMonth: int): (r: seq<MonthButton>)
    ensures |r| == |data|
    ensures forall i :: 0 <= i < |data| ==> r[i] == ButtonOf(data[i], currentMonth)
  {
    seq(|data|, i requires 0 <= i < |data| => ButtonOf(data[i], currentMonth))
  }

  /**
   * For the months of a summary, a button is enabled and leads to its own
   * month exactly when the month is not after the current one.
   */
  lemma {:induction false} FutureMonthsDisabled(data: seq<MonthSummary>, currentMonth: int)
    requires forall i :: 0 <= i < |data| ==> data[i].month == i + 1
    ensures var r := Buttons(data, currentMonth);
      forall i :: 0 <= i < |r| ==>
        (r[i].target.Some? <==> i + 1 <= currentMonth) &&
        (r[i].target.Some? ==> r[i].target.value == i + 1) &&
        (r[i].status.Some? <==> r[i].target.Some?)
  {
  }

  /** The page: the year's summary, a button per month and the projection under them. */
  datatype AnnualPage = AnnualPage(summary: AnnualSummary, buttons: seq<MonthButton>, projection: real)

  /** What the year saves according to the per-month balances. */
  function YearSaved(s: PersistedState, year: int): real {
    Sum(seq(12, i requires 0 <= i < 12 => MonthEntry(s, i + 1, year)), EntryBalance)
  }

  /**
   * The page of a year: the projection `averageMonthlySaved * 12` is the
   * summary's savings total, which is the sum of the twelve balances; the
   * buttons follow the months 1..12.
   */
  method Render(s: PersistedState, year: int, currentMonth: int) returns (page: AnnualPage)
    ensures page.projection == page.summary.totalSaved
    ensures page.projection == YearSaved(s, year)
    ensures page.projection == 12.0 * TotalIncome(s) - page.summary.totalExpenses
    ensures |page.buttons| == 12
    ensures forall i :: 0 <= i < 12 ==>
      (page.buttons[i].target.Some? <==> i + 1 <= currentMonth) &&
      (page.buttons[i].target.Some? ==>
        page.buttons[i].status == Some(StatusOf(MonthlyBalance(s, i + 1, year), MonthlyGoalFor(s, i + 1, year))))
  {
    var summary := GetAnnualSummary(s, year);
    assert summary.monthlyData == seq(12, i requires 0 <= i < 12 => MonthEntry(s, i + 1, year));
    forall i | 0 <= i < 12 ensures summary.monthlyData[i].month == i + 1 {
      MonthEntryFields(s, i + 1, year);
    }
    FutureMonthsDisabled(summary.monthlyData, currentMonth);
    var buttons := Buttons(summary.monthlyData, currentMonth);
    forall i | 0 <= i < 12
      ensures buttons[i].target.Some? ==>
        buttons[i].status == Some(StatusOf(MonthlyBalance(s, i + 1, year), MonthlyGoalFor(s, i + 1, year)))
    {
      MonthEntryFields(s, i + 1, year);
    }
    page := AnnualPage(summary, buttons, summary.averageMonthlySaved * 12.0);
  }
}
