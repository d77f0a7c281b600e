/**
 * The month summary card of the hosted dashboard
 * (src/components/dashboard/SummaryCard.tsx): the month's total spending,
 * the balance left of the income, whether the savings goal is met and the
 * progress towards it.
 */
module SummaryCard {
  import opened Numbers

  /** `totalExpenses`: fixed, installment and variable spending together. */
  function TotalExpenses(fixed: real, temporary: real, variable: real): real {
    fixed + temporary + variable
  }

  /** `balance`: the income less the total spending. */
  function Balance(income: real, fixed: real, temporary: real, variable: real): real {
    income - TotalExpenses(fixed, temporary, variable)
  }

  /** `reachedGoal`: the balance covers the savings goal. */
  predicate ReachedGoal(balance: real, savingsGoal: real) {
    balance >= savingsGoal
  }

  /**
   * `goalProgress`: the balance as a percentage of a positive goal, capped at
   * 100 and negative when the month is in deficit; zero without a positive
   * goal.
   */
  function GoalProgress(balance: real, savingsGoal: real): (r: real)
    ensures r <= 100.0
    ensures savingsGoal <= 0.0 ==> r == 0.0
    ensures savingsGoal > 0.0 && balance < 0.0 ==> r < 0.0
    ensures savingsGoal > 0.0 && balance < savingsGoal ==> r * savingsGoal == balance * 100.0
  {
    if savingsGoal > 0.0 then
      var share := (balance / savingsGoal) * 100.0;
      QuotientAtLeast(balance, savingsGoal, 1.0);
      QuotientAtLeast(balance, savingsGoal, 0.0);
      assert (balance / savingsGoal) * savingsGoal == balance;
      if share < 100.0 then share else 100.0
    else 0.0
  }

  /**
   * With a positive goal the bar is full exactly when the goal is reached;
   * the balance is what remains of the income after every kind of spending.
   */
  lemma {:induction false} FullExactlyWhenReached(income: real, fixed: real, temporary: real, variable: real, savingsGoal: real)
    requires savingsGoal > 0.0
    ensures var b := Balance(income, fixed, temporary, variable);
      GoalProgress(b, savingsGoal) == 100.0 <==> ReachedGoal(b, savingsGoal)
    ensures Balance(income, fixed, temporary, variable) + fixed + temporary + variable == income
  {
    var b := Balance(income, fixed, temporary, variable);
    QuotientAtLeast(b, savingsGoal, 1.0);
  }
}
