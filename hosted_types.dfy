/**
 * The rows of the hosted edition's tables (src/types/database.ts) and their
 * partial updates. Column names are snake_case in the database
 * (`other_income`, `is_active`, ...); the fields here use the same names in
 * camelCase. Timestamps (`created_at`, `plan_expires_at`, `trial_ends_at`)
 * are integers in milliseconds.
 */
module HostedTypes {
  import opened Wrappers
  import opened Categories
  import opened Domain

  datatype Plan = Free | Premium

  /** The `subscription_status` column: `'none' | 'trialing' | 'active' | 'canceled' | 'past_due'`. */
  datatype SubscriptionStatus = NoSubscription | Trialing | Active | Canceled | PastDue

  /**
   * A row of `profiles`. The last three columns are read and written by the
   * subscription code although the declared row type omits them.
   */
  datatype ProfileRow = ProfileRow(
    id: string,
    name: Option<string>,
    createdAt: int,
    salary: real,
    otherIncome: real,
    payDay: int,
    hasAdvance: bool,
    advanceDay: Option<int>,
    savingsGoal: real,
    leisureBudget: real,
    plan: Plan,
    planExpiresAt: Option<int>,
    stripeCustomerId: Option<string>,
    hasCompletedOnboarding: bool,
    subscriptionStatus: Option<SubscriptionStatus>,
    trialEndsAt: Option<int>,
    stripeSubscriptionId: Option<string>)

  /** A `ProfileUpdate`: every column but `id` and `created_at`, each optional. */
  datatype ProfileRowUpdate = ProfileRowUpdate(
    name: Option<Option<string>>,
    salary: Option<real>,
    otherIncome: Option<real>,
    payDay: Option<int>,
    hasAdvance: Option<bool>,
    advanceDay: Option<Option<int>>,
    savingsGoal: Option<real>,
    leisureBudget: Option<real>,
    plan: Option<Plan>,
    planExpiresAt: Option<Option<int>>,
    stripeCustomerId: Option<Option<string>>,
    hasCompletedOnboarding: Option<bool>,
    subscriptionStatus: Option<Option<SubscriptionStatus>>,
    trialEndsAt: Option<Option<int>>,
    stripeSubscriptionId: Option<Option<string>>)

  const NoRowChange := ProfileRowUpdate(
    None, None, None, None, None, None, None, None, None, None, None, None, None, None, None)

  /** `{ ...p, ...u }` on a profile row. */
  function MergeProfileRow(p: ProfileRow, u: ProfileRowUpdate): ProfileRow {
    ProfileRow(
      p.id,
      u.name.GetOr(p.name),
      p.createdAt,
      u.salary.GetOr(p.salary),
      u.otherIncome.GetOr(p.otherIncome),
      u.payDay.GetOr(p.payDay),
      u.hasAdvance.GetOr(p.hasAdvance),
      u.advanceDay.GetOr(p.advanceDay),
      u.savingsGoal.GetOr(p.savingsGoal),
      u.leisureBudget.GetOr(p.leisureBudget),
      u.plan.GetOr(p.plan),
      u.planExpiresAt.GetOr(p.planExpiresAt),
      u.stripeCustomerId.GetOr(p.stripeCustomerId),
      u.hasCompletedOnboarding.GetOr(p.hasCompletedOnboarding),
      u.subscriptionStatus.GetOr(p.subscriptionStatus),
      u.trialEndsAt.GetOr(p.trialEndsAt),
      u.stripeSubscriptionId.GetOr(p.stripeSubscriptionId))
  }

  /**
   * What an add in a data hook returns: the inserted row, the limit error
   * (`{ error: 'LIMIT_REACHED', limitReached: true }`), or another error message.
   */
  datatype AddOutcome<+R> = Added(data: R) | LimitReached | AddError(message: string)

  /** A value a backend call throws: an `Error` instance with its message, or anything else. */
  datatype Thrown = ErrorInstance(message: string) | NonError

  /** `err instanceof Error ? err.message : fallback`. */
  function MessageOf(t: Thrown, fallback: string): string {
    match t
    case ErrorInstance(message) => message
    case NonError => fallback
  }

  /** What a mutator without data returns: `{ error: null }`, or `{ error: message }` for what it caught. */
  function OutcomeOf(failure: Option<Thrown>, fallback: string): Outcome {
    match failure
    case None => Success
    case Some(t) => Failure(MessageOf(t, fallback))
  }

  /** The error of every hook mutator called without a signed-in user. */
  const NotAuthenticated := "Usuário não autenticado"

  /** A row of `transactions`. */
  datatype Transaction = Transaction(
    id: string, userId: string, description: Option<string>, amount: real,
    category: Category, date: Date, month: int, year: int, createdAt: int)

  /** The fields a caller supplies for a new transaction. */
  datatype TransactionDraft = TransactionDraft(
    description: Option<string>, amount: real, category: Category,
    date: Date, month: int, year: int)

  /** The inserted payload `{ ...transaction, user_id }`. */
  datatype TransactionInsert = TransactionInsert(userId: string, draft: TransactionDraft)

  datatype TransactionUpdate = TransactionUpdate(
    description: Option<Option<string>>, amount: Option<real>, category: Option<Category>,
    date: Option<Date>, month: Option<int>, year: Option<int>)

  function MergeTransaction(t: Transaction, u: TransactionUpdate): Transaction {
    t.(description := u.description.GetOr(t.description),
       amount := u.amount.GetOr(t.amount),
       category := u.category.GetOr(t.category),
       date := u.date.GetOr(t.date),
       month := u.month.GetOr(t.month),
       year := u.year.GetOr(t.year))
  }

  /** A row of `fixed_expenses`. */
  datatype FixedExpenseRow = FixedExpenseRow(
    id: string, userId: string, name: string, amount: real,
    category: Category, isActive: bool, createdAt: int)

  datatype FixedExpenseDraft = FixedExpenseDraft(
    name: string, amount: real, category: Category, isActive: bool)

  datatype FixedExpenseInsert = FixedExpenseInsert(userId: string, draft: FixedExpenseDraft)

  datatype FixedExpenseRowUpdate = FixedExpenseRowUpdate(
    name: Option<string>, amount: Option<real>, category: Option<Category>, isActive: Option<bool>)

  function MergeFixedExpenseRow(e: FixedExpenseRow, u: FixedExpenseRowUpdate): FixedExpenseRow {
    e.(name := u.name.GetOr(e.name),
       amount := u.amount.GetOr(e.amount),
       category := u.category.GetOr(e.category),
       isActive := u.isActive.GetOr(e.isActive))
  }

  /** A row of `temporary_expenses`. */
  datatype TemporaryExpenseRow = TemporaryExpenseRow(
    id: string, userId: string, name: string, amount: real, category: Category,
    startMonth: int, startYear: int, endMonth: int, endYear: int, createdAt: int)

  datatype TemporaryExpenseDraft = TemporaryExpenseDraft(
    name: string, amount: real, category: Category,
    startMonth: int, startYear: int, endMonth: int, endYear: int)

  datatype TemporaryExpenseInsert = TemporaryExpenseInsert(userId: string, draft: TemporaryExpenseDraft)

  datatype TemporaryExpenseRowUpdate = TemporaryExpenseRowUpdate(
    name: Option<string>, amount: Option<real>, category: Option<Category>,
    startMonth: Option<int>, startYear: Option<int>, endMonth: Option<int>, endYear: Option<int>)

  function MergeTemporaryExpenseRow(e: TemporaryExpenseRow, u: TemporaryExpenseRowUpdate): TemporaryExpenseRow {
    e.(name := u.name.GetOr(e.name),
       amount := u.amount.GetOr(e.amount),
       category := u.category.GetOr(e.category),
       startMonth := u.startMonth.GetOr(e.startMonth),
       startYear := u.startYear.GetOr(e.startYear),
       endMonth := u.endMonth.GetOr(e.endMonth),
       endYear := u.endYear.GetOr(e.endYear))
  }

  /** A row merge never changes the row's id, owner or creation time. */
  lemma {:induction false} MergeKeepsIdentity(p: ProfileRow, u: ProfileRowUpdate, t: Transaction, tu: TransactionUpdate,
                           f: FixedExpenseRow, fu: FixedExpenseRowUpdate,
                           e: TemporaryExpenseRow, eu: TemporaryExpenseRowUpdate)
    ensures MergeProfileRow(p, u).id == p.id && MergeProfileRow(p, u).createdAt == p.createdAt
    ensures MergeProfileRow(p, NoRowChange) == p
    ensures MergeTransaction(t, tu).id == t.id && MergeTransaction(t, tu).userId == t.userId
    ensures MergeFixedExpenseRow(f, fu).id == f.id && MergeFixedExpenseRow(f, fu).userId == f.userId
    ensures MergeTemporaryExpenseRow(e, eu).id == e.id && MergeTemporaryExpenseRow(e, eu).userId == e.userId
  {
  }
}
