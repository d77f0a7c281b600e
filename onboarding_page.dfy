/**
 * The onboarding page of the hosted edition (src/pages/Onboarding.tsx): the
 * rule that decides whether a step may proceed, the progress shown on the
 * middle steps, and the final submission, which saves the answers through
 * the profile hook once and then moves to the dashboard.
 */
module OnboardingPage {
  import opened Wrappers
  import opened Numbers
  import opened OnboardingWizard
  import ProfileHook
  import HostedTypes

  /** `canProceed`: the answers a step needs before "next" is enabled. */
  predicate CanProceed(step: int, d: OnboardingData) {
    if step == 2 then d.salary > 0.0 && d.payDay > 0
    else if step == 4 then d.savingsGoal >= 0.0
    else if step == 5 then d.leisureBudget >= 0.0
    else true
  }

  /**
   * Only the income, goal and leisure steps can hold the user back, and the
   * fixed expenses never do: the initial answers stop step 2 only.
   */
  lemma {:induction false} CanProceedRules(step: int, d: OnboardingData, items: seq<OnboardingItem>)
    ensures !CanProceed(step, d) ==> step == 2 || step == 4 || step == 5
    ensures CanProceed(step, d.(fixedExpenses := items)) == CanProceed(step, d)
    ensures CanProceed(step, InitialData) <==> step != 2
    ensures CanProceed(2, d) ==> d.salary > 0.0
  {
  }

  /** The percentage shown above steps 2..5, none on the first and last steps. */
  function ProgressPercent(step: int): (r: Option<int>)
    ensures r.Some? <==> 1 < step < TotalSteps
  {
    if step > 1 && step < TotalSteps then
      Some(RoundHalfUp(((step - 1) as real / (TotalSteps - 2) as real) * 100.0))
    else None
  }

  /** The progress moves in quarters: 25, 50, 75 and 100 percent on steps 2, 3, 4 and 5. */
  lemma {:induction false} ProgressQuarters(step: int)
    requires 1 < step < TotalSteps
    ensures ProgressPercent(step) == Some(25 * (step - 1))
    ensures 25 <= ProgressPercent(step).value <= 100
  {
    var x := ((step - 1) as real / 4.0) * 100.0;
    assert x == (25 * (step - 1)) as real;
  }

  /** The payload's expense for a wizard item: its name, amount and category, without the flag. */
  function PayloadExpenseOf(item: OnboardingItem): ProfileHook.PayloadExpense {
    ProfileHook.PayloadExpense(item.name, item.amount, item.category)
  }

  /** `data.fixedExpenses.map(...)`: the items in wizard order, each without `isActive`. */
  function PayloadExpenses(items: seq<OnboardingItem>): (r: seq<ProfileHook.PayloadExpense>)
    ensures |r| == |items|
    ensures forall i :: 0 <= i < |items| ==>
      r[i].name == items[i].name && r[i].amount == items[i].amount && r[i].category == items[i].category
    decreases |items|
  {
    if items == [] then [] else [PayloadExpenseOf(items[0])] + PayloadExpenses(items[1..])
  }

  /** The object `handleComplete` passes to the profile hook. */
  function PayloadOf(d: OnboardingData): ProfileHook.OnboardingPayload {
    ProfileHook.OnboardingPayload(d.salary, d.otherIncome, d.payDay, d.hasAdvance, d.advanceDay,
                                  d.savingsGoal, d.leisureBudget, PayloadExpenses(d.fixedExpenses))
  }

  /**
   * The payload forgets the flags: two lists that differ only in `isActive`
   * give the same payload, and every item, active or not, is inserted as an
   * active row.
   */
  lemma {:induction false} PayloadDropsActive(d: OnboardingData, flags: seq<bool>, userId: string)
    requires |flags| == |d.fixedExpenses|
    ensures var flipped := seq(|flags|, i requires 0 <= i < |flags| => d.fixedExpenses[i].(isActive := flags[i]));
      PayloadOf(d.(fixedExpenses := flipped)) == PayloadOf(d)
    ensures var rows := ProfileHook.InsertRows(userId, PayloadOf(d).fixedExpenses);
      |rows| == |d.fixedExpenses| &&
      forall i :: 0 <= i < |rows| ==> rows[i].draft.isActive && rows[i].draft.name == d.fixedExpenses[i].name
  {
    var flipped := seq(|flags|, i requires 0 <= i < |flags| => d.fixedExpenses[i].(isActive := flags[i]));
    var a := PayloadExpenses(flipped);
    var b := PayloadExpenses(d.fixedExpenses);
    assert |a| == |b|;
    forall i | 0 <= i < |a| ensures a[i] == b[i] {
      assert flipped[i].name == d.fixedExpenses[i].name;
    }
  }

  const DashboardPath := "/dashboard"

  /** The page's `isSubmitting` flag and the path it navigated to, if any. */
  class Page {
    var isSubmitting: bool
    var navigatedTo: Option<string>

    constructor()
      ensures !isSubmitting && navigatedTo == None
    {
      isSubmitting := false;
      navigatedTo := None;
    }

    /**
     * `handleComplete`: ignored while a submission is in flight; otherwise
     * marks the page as submitting and saves the payload. On an error the
     * flag is cleared so the user can retry; on success the page goes to the
     * dashboard, still marked as submitting.
     */
    method HandleComplete(hook: ProfileHook.ProfileState, user: Option<string>, d: OnboardingData,
                          updateFailure: Option<HostedTypes.Thrown>, insertFailure: Option<HostedTypes.Thrown>,
                          refetch: Result<HostedTypes.ProfileRow, HostedTypes.Thrown>)
      returns (requests: seq<ProfileHook.Request>)
      modifies this, hook
      ensures old(isSubmitting) ==>
        requests == [] && isSubmitting && navigatedTo == old(navigatedTo) &&
        hook.profile == old(hook.profile) && hook.loading == old(hook.loading) && hook.error == old(hook.error)
      ensures !old(isSubmitting) && user.Some? ==>
        |requests| >= 1 && requests[0] == ProfileHook.UpdateProfileRow(user.value, ProfileHook.OnboardingUpdate(PayloadOf(d)))
      ensures !old(isSubmitting) && user.None? ==> requests == [] && !isSubmitting && navigatedTo == old(navigatedTo)
      ensures !old(isSubmitting) && user.Some? && updateFailure.None? &&
              (d.fixedExpenses == [] || insertFailure.None?) ==>
        isSubmitting && navigatedTo == Some(DashboardPath)
      ensures !old(isSubmitting) && user.Some? &&
              (updateFailure.Some? || (d.fixedExpenses != [] && insertFailure.Some?)) ==>
        !isSubmitting && navigatedTo == old(navigatedTo)
    {
      if isSubmitting {
        return [];
      }
      isSubmitting := true;
      var error;
      error, requests := hook.CompleteOnboarding(user, PayloadOf(d), updateFailure, insertFailure, refetch);
      if error.Some? {
        isSubmitting := false;
        return;
      }
      navigatedTo := Some(DashboardPath);
    }
  }
}
