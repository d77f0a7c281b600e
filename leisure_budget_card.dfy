/**
 * The leisure budget card of the dashboard
 * (finny/src/components/dashboard/LeisureBudgetCard.tsx): what is left of
 * the leisure budget, the share spent, a four-rung status message, the bar
 * colour and the remaining amount per week.
 */
module LeisureBudgetCard {
  import opened Wrappers
  import opened Numbers
  import ProgressBar

  /** `remaining`: the budget less what was spent; negative once exceeded. */
  function Remaining(spent: real, budget: real): real {
    budget - spent
  }

  /** `percentage`: the share spent, uncapped; zero when the budget is not positive. */
  function Percentage(spent: real, budget: real): (r: real)
    ensures budget <= 0.0 ==> r == 0.0
    ensures budget > 0.0 ==> r * budget == spent * 100.0
  {
    if budget > 0.0 then
      assert (spent / budget) * budget == spent;
      (spent / budget) * 100.0
    else 0.0
  }

  /** `isOverBudget`: more was spent than budgeted. */
  predicate IsOverBudget(spent: real, budget: real) {
    spent > budget
  }

  /** The four messages of `getStatusMessage`, each with its text colour. */
  datatype Status = Exceeded | AlmostAtLimit | HalfSpent | Healthy {
    function Text(): string {
      match this
      case Exceeded => "Orçamento excedido!"
      case AlmostAtLimit => "Quase no limite"
      case HalfSpent => "Metade do orçamento"
      case Healthy => "Orçamento saudável"
    }

    function Color(): string {
      match this
      case Exceeded => "text-danger"
      case AlmostAtLimit => "text-warning"
      case HalfSpent => "text-text-muted"
      case Healthy => "text-primary"
    }
  }

  /** `getStatusMessage`: over budget first, then 80 percent, then 50 percent, else healthy. */
  function StatusOf(spent: real, budget: real): Status {
    if IsOverBudget(spent, budget) then Exceeded
    else if Percentage(spent, budget) >= 80.0 then AlmostAtLimit
    else if Percentage(spent, budget) >= 50.0 then HalfSpent
    else Healthy
  }

  /**
   * Each status holds exactly when its rung is the first that applies; a
   * budget that is not positive and not exceeded is always healthy.
   */
  lemma {:induction false} StatusLadder(spent: real, budget: real)
    ensures StatusOf(spent, budget) == Exceeded <==> spent > budget
    ensures StatusOf(spent, budget) == AlmostAtLimit <==>
      spent <= budget && budget > 0.0 && spent >= 0.8 * budget
    ensures StatusOf(spent, budget) == HalfSpent <==>
      spent <= budget && budget > 0.0 && 0.5 * budget <= spent < 0.8 * budget
    ensures StatusOf(spent, budget) == Healthy <==>
      spent <= budget && (budget <= 0.0 || spent < 0.5 * budget)
  {
    if budget > 0.0 {
      ShareAtLeast(spent, budget, 80.0);
      ShareAtLeast(spent, budget, 50.0);
    }
  }

  /** The share spent reaches `p` percent exactly when the amount reaches `p` hundredths of the budget. */
  lemma {:induction false} ShareAtLeast(spent: real, budget: real, p: real)
    requires budget > 0.0
    ensures Percentage(spent, budget) >= p <==> spent >= (p / 100.0) * budget
  {
    QuotientAtLeast(spent, budget, p / 100.0);
  }

  const Red := "#ef4444"
  const Amber := "#f59e0b"
  const Pink := "#f472b6"

  /** `getProgressColor`: red over budget, amber from 80 percent, pink otherwise. */
  function ProgressColor(spent: real, budget: real): string {
    if IsOverBudget(spent, budget) then Red
    else if Percentage(spent, budget) >= 80.0 then Amber
    else Pink
  }

  /**
   * The colour follows the status: red iff exceeded, amber iff almost at the
   * limit, pink otherwise; and the bar the card draws keeps that colour.
   */
  lemma {:induction false} ProgressColorFollowsStatus(spent: real, budget: real)
    ensures ProgressColor(spent, budget) == Red <==> StatusOf(spent, budget) == Exceeded
    ensures ProgressColor(spent, budget) == Amber <==> StatusOf(spent, budget) == AlmostAtLimit
    ensures ProgressColor(spent, budget) == Pink <==> StatusOf(spent, budget) in {HalfSpent, Healthy}
    ensures ProgressBar.BarColor(spent, budget, Some(ProgressColor(spent, budget))) == ProgressColor(spent, budget)
  {
    assert ProgressBar.OverBudgetColor == Red;
  }

  /** The weekly remainder, `Math.max(remaining / 4, 0)`. */
  function WeeklyRemaining(spent: real, budget: real): (r: real)
    ensures r >= 0.0
    ensures spent <= budget ==> 4.0 * r == Remaining(spent, budget)
    ensures spent >= budget ==> r == 0.0
  {
    var w := Remaining(spent, budget) / 4.0;
    if w > 0.0 then w else 0.0
  }
}
