/**
 * The `useProfile` hook of the hosted edition (src/hooks/useProfile.ts): the
 * signed-in user's profile row, its local merge after an update, and the
 * onboarding save that writes the answers in the table's column names and
 * inserts the fixed expenses. Each backend call is a request the hook
 * issues, and its outcome is a parameter.
 */
module ProfileHook {
  import opened Wrappers
  import opened Categories
  import opened HostedTypes

  const FetchFallback := "Erro ao carregar perfil"
  const UpdateFallback := "Erro ao atualizar perfil"
  const CompleteFallback := "Erro ao completar onboarding"

  /** A fixed expense of the onboarding payload. */
  datatype PayloadExpense = PayloadExpense(name: string, amount: real, category: Category)

  /** The argument of `completeOnboarding`. */
  datatype OnboardingPayload = OnboardingPayload(
    salary: real,
    otherIncome: real,
    payDay: int,
    hasAdvance: bool,
    advanceDay: int,
    savingsGoal: real,
    leisureBudget: real,
    fixedExpenses: seq<PayloadExpense>)

  /** The backend requests the hook issues. */
  datatype Request =
    | SelectProfile(userId: string)
    | UpdateProfileRow(userId: string, update: ProfileRowUpdate)
    | InsertFixedExpenses(rows: seq<FixedExpenseInsert>)

  /** The profile update `completeOnboarding` sends: the seven answers and the onboarding flag. */
  function OnboardingUpdate(d: OnboardingPayload): ProfileRowUpdate {
    NoRowChange.(
      salary := Some(d.salary),
      otherIncome := Some(d.otherIncome),
      payDay := Some(d.payDay),
      hasAdvance := Some(d.hasAdvance),
      advanceDay := Some(Some(d.advanceDay)),
      savingsGoal := Some(d.savingsGoal),
      leisureBudget := Some(d.leisureBudget),
      hasCompletedOnboarding := Some(true))
  }

  /** The rows inserted into `fixed_expenses`: one per payload expense, in order, owned by the user and active. */
  function InsertRows(userId: string, es: seq<PayloadExpense>): (r: seq<FixedExpenseInsert>)
    ensures |r| == |es|
    ensures forall i :: 0 <= i < |es| ==>
      r[i] == FixedExpenseInsert(userId, FixedExpenseDraft(es[i].name, es[i].amount, es[i].category, true))
    decreases |es|
  {
    if es == [] then []
    else [FixedExpenseInsert(userId, FixedExpenseDraft(es[0].name, es[0].amount, es[0].category, true))] +
         InsertRows(userId, es[1..])
  }

  /**
   * Applied to any profile row, the onboarding update writes the seven
   * answers, marks the profile onboarded, and keeps the id, the name and the
   * plan and subscription columns.
   */
  lemma {:induction false} OnboardingUpdateEffect(row: ProfileRow, d: OnboardingPayload)
    ensures var r := MergeProfileRow(row, OnboardingUpdate(d));
      r.salary == d.salary && r.otherIncome == d.otherIncome && r.payDay == d.payDay &&
      r.hasAdvance == d.hasAdvance && r.advanceDay == Some(d.advanceDay) &&
      r.savingsGoal == d.savingsGoal && r.leisureBudget == d.leisureBudget &&
      r.hasCompletedOnboarding &&
      r.id == row.id && r.name == row.name && r.plan == row.plan &&
      r.subscriptionStatus == row.subscriptionStatus && r.stripeCustomerId == row.stripeCustomerId &&
      r.trialEndsAt == row.trialEndsAt && r.stripeSubscriptionId == row.stripeSubscriptionId
  {
  }

  /** Splitting the payload splits the inserted rows: the rows follow the payload's order. */
  lemma {:induction false} InsertRowsAppend(userId: string, a: seq<PayloadExpense>, b: seq<PayloadExpense>)
    ensures InsertRows(userId, a + b) == InsertRows(userId, a) + InsertRows(userId, b)
  {
    var r := InsertRows(userId, a + b);
    var q := InsertRows(userId, a) + InsertRows(userId, b);
    assert |r| == |q|;
    forall i | 0 <= i < |r| ensures r[i] == q[i] {
      if i < |a| {
        assert (a + b)[i] == a[i];
      } else {
        assert (a + b)[i] == b[i - |a|];
      }
    }
  }

  /** The hook's `profile`, `loading` and `error` state. */
  class ProfileState {
    var profile: Option<ProfileRow>
    var loading: bool
    var error: Option<string>

    constructor()
      ensures profile == None && loading && error == None
    {
      profile := None;
      loading := true;
      error := None;
    }

    /**
     * `fetchProfile`: without a user the profile is cleared and no query is
     * issued; otherwise the selected row replaces the profile, or the error
     * message is recorded. Loading ends either way.
     */
    method FetchProfile(user: Option<string>, response: Result<ProfileRow, Thrown>) returns (requests: seq<Request>)
      modifies this
      ensures !loading
      ensures user.None? ==> requests == [] && profile == None && error == old(error)
      ensures user.Some? ==> requests == [SelectProfile(user.value)]
      ensures user.Some? && response.Ok? ==> profile == Some(response.value) && error == old(error)
      ensures user.Some? && response.Err? ==>
        profile == old(profile) && error == Some(MessageOf(response.error, FetchFallback))
    {
      if user.None? {
        profile := None;
        loading := false;
        return [];
      }
      requests := [SelectProfile(user.value)];
      loading := false;
      match response
      case Ok(row) => profile := Some(row);
      case Err(t) => error := Some(MessageOf(t, FetchFallback));
    }

    /**
     * `updateProfile`: needs a user; after a successful update the fields are
     * merged into the local profile when there is one; the result is the
     * error message, if any.
     */
    method UpdateProfile(user: Option<string>, updates: ProfileRowUpdate, failure: Option<Thrown>)
      returns (r: Option<string>, requests: seq<Request>)
      modifies this
      ensures user.None? ==> r == Some(NotAuthenticated) && requests == [] && profile == old(profile)
      ensures user.Some? ==> requests == [UpdateProfileRow(user.value, updates)]
      ensures user.Some? && failure.Some? ==>
        r == Some(MessageOf(failure.value, UpdateFallback)) && profile == old(profile)
      ensures user.Some? && failure.None? ==>
        r == None &&
        profile == (if old(profile).Some? then Some(MergeProfileRow(old(profile).value, updates)) else None)
      ensures loading == old(loading) && error == old(error)
    {
      if user.None? {
        return Some(NotAuthenticated), [];
      }
      requests := [UpdateProfileRow(user.value, updates)];
      if failure.Some? {
        return Some(MessageOf(failure.value, UpdateFallback)), requests;
      }
      profile := if profile.Some? then Some(MergeProfileRow(profile.value, updates)) else None;
      r := None;
    }

    /**
     * `completeOnboarding`: needs a user; sends the onboarding update, then,
     * only when the payload has fixed expenses, inserts them all as active
     * rows, then fetches the profile again. The first failure ends the call
     * with its message and no later request.
     */
    method CompleteOnboarding(user: Option<string>, d: OnboardingPayload,
                              updateFailure: Option<Thrown>, insertFailure: Option<Thrown>,
                              refetch: Result<ProfileRow, Thrown>)
      returns (r: Option<string>, requests: seq<Request>)
      modifies this
      ensures user.None? ==>
        r == Some(NotAuthenticated) && requests == [] &&
        profile == old(profile) && loading == old(loading) && error == old(error)
      ensures user.Some? ==> |requests| >= 1 && requests[0] == UpdateProfileRow(user.value, OnboardingUpdate(d))
      ensures user.Some? && updateFailure.Some? ==>
        r == Some(MessageOf(updateFailure.value, CompleteFallback)) && |requests| == 1 &&
        profile == old(profile) && loading == old(loading) && error == old(error)
      ensures user.Some? && updateFailure.None? && d.fixedExpenses != [] ==>
        |requests| >= 2 && requests[1] == InsertFixedExpenses(InsertRows(user.value, d.fixedExpenses))
      ensures user.Some? && updateFailure.None? && d.fixedExpenses != [] && insertFailure.Some? ==>
        r == Some(MessageOf(insertFailure.value, CompleteFallback)) && |requests| == 2 &&
        profile == old(profile) && loading == old(loading) && error == old(error)
      ensures user.Some? && updateFailure.None? && (d.fixedExpenses == [] || insertFailure.None?) ==>
        r == None &&
        requests == (if d.fixedExpenses == [] then [UpdateProfileRow(user.value, OnboardingUpdate(d))]
                     else [UpdateProfileRow(user.value, OnboardingUpdate(d)),
                           InsertFixedExpenses(InsertRows(user.value, d.fixedExpenses))]) +
                    [SelectProfile(user.value)] &&
        !loading &&
        (refetch.Ok? ==> profile == Some(refetch.value) && error == old(error)) &&
        (refetch.Err? ==> profile == old(profile) && error == Some(MessageOf(refetch.error, FetchFallback)))
      ensures forall i :: 0 <= i < |requests| && requests[i].InsertFixedExpenses? ==>
        forall j :: 0 <= j < |requests[i].rows| ==> requests[i].rows[j].draft.isActive
    {
      if user.None? {
        return Some(NotAuthenticated), [];
      }
      requests := [UpdateProfileRow(user.value, OnboardingUpdate(d))];
      if updateFailure.Some? {
        return Some(MessageOf(updateFailure.value, CompleteFallback)), requests;
      }
      if |d.fixedExpenses| > 0 {
        requests := requests + [InsertFixedExpenses(InsertRows(user.value, d.fixedExpenses))];
        if insertFailure.Some? {
          return Some(MessageOf(insertFailure.value, CompleteFallback)), requests;
        }
      }
      var fetched := FetchProfile(user, refetch);
      requests := requests + fetched;
      r := None;
    }
  }
}
