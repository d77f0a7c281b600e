/**
 * The records of the local edition (finny/src/types/index.ts) and the
 * constant tables of finny/src/utils/constants.ts.
 */
module Domain {
  import opened Wrappers
  import opened Categories

  /** A calendar date `YYYY-MM-DD`, the `date` field of an expense. */
  datatype Date = Date(year: int, month: int, day: int)

  /** Strictly earlier in calendar order (year, then month, then day). */
  predicate Before(a: Date, b: Date) {
    a.year < b.year
    || (a.year == b.year && a.month < b.month)
    || (a.year == b.year && a.month == b.month && a.day < b.day)
  }

  /** Calendar order is a strict total order on dates. */
  lemma {:induction false} BeforeIsStrictTotalOrder(a: Date, b: Date, c: Date)
    ensures !Before(a, a)
    ensures Before(a, b) ==> !Before(b, a)
    ensures Before(a, b) && Before(b, c) ==> Before(a, c)
    ensures a != b ==> Before(a, b) || Before(b, a)
  {
  }

  /**
   * The user's profile. Money is a `real`; `createdAt` is the ISO creation
   * time, kept as an integer timestamp.
   */
  datatype UserProfile = UserProfile(
    id: string,
    name: string,
    createdAt: int,
    hasCompletedOnboarding: bool,
    salary: real,
    otherIncome: real,
    payDay: int,
    hasAdvance: bool,
    advanceDay: int,
    savingsGoal: real,
    leisureBudget: real)

  /** A monthly recurring expense; inactive ones do not count. */
  datatype FixedExpense = FixedExpense(
    id: string, name: string, amount: real, category: Category, isActive: bool)

  /** An installment expense, due every month from (startMonth, startYear) to (endMonth, endYear). */
  datatype TemporaryExpense = TemporaryExpense(
    id: string, name: string, amount: real,
    startMonth: int, startYear: int, endMonth: int, endYear: int,
    category: Category)

  /** A variable (day-to-day) expense; `createdAt` is its creation timestamp. */
  datatype Expense = Expense(
    id: string, description: string, amount: real, category: Category,
    date: Date, month: int, year: int, createdAt: int)

  /** A savings goal that overrides the profile's goal for one (month, year). */
  datatype MonthlyGoal = MonthlyGoal(month: int, year: int, targetAmount: real)

  /** The five persisted fields of the application state. */
  datatype PersistedState = PersistedState(
    profile: Option<UserProfile>,
    fixedExpenses: seq<FixedExpense>,
    temporaryExpenses: seq<TemporaryExpense>,
    expenses: seq<Expense>,
    monthlyGoals: seq<MonthlyGoal>)

  /** The state with no profile and four empty collections. */
  const DefaultState := PersistedState(None, [], [], [], [])

  /** The month index `year * 12 + month` used for every period comparison. */
  function MonthIndex(month: int, year: int): int {
    year * 12 + month
  }

  /** Month names, index 0 being the empty string. */
  const Months: seq<string> := [
    "", "Janeiro", "Fevereiro", "Março", "Abril", "Maio", "Junho",
    "Julho", "Agosto", "Setembro", "Outubro", "Novembro", "Dezembro"]

  /** A fixed-expense suggestion offered during onboarding. */
  datatype Suggestion = Suggestion(name: string, category: Category, suggested: real)

  const DefaultFixedExpenses: seq<Suggestion> := [
    Suggestion("Aluguel", Moradia, 1500.0),
    Suggestion("Condomínio", Moradia, 500.0),
    Suggestion("Energia", Moradia, 150.0),
    Suggestion("Água", Moradia, 80.0),
    Suggestion("Internet", Moradia, 100.0),
    Suggestion("Celular", Outros, 50.0),
    Suggestion("Academia", Saude, 100.0),
    Suggestion("Streaming", Lazer, 50.0),
    Suggestion("Transporte", Transporte, 300.0),
    Suggestion("Alimentação", Alimentacao, 800.0)]

  /** A `Partial<UserProfile>`: each `Some` field overrides the profile's field. */
  datatype ProfileUpdate = ProfileUpdate(
    id: Option<string>,
    name: Option<string>,
    createdAt: Option<int>,
    hasCompletedOnboarding: Option<bool>,
    salary: Option<real>,
    otherIncome: Option<real>,
    payDay: Option<int>,
    hasAdvance: Option<bool>,
    advanceDay: Option<int>,
    savingsGoal: Option<real>,
    leisureBudget: Option<real>)

  const NoProfileChange := ProfileUpdate(None, None, None, None, None, None, None, None, None, None, None)

  /** `{ ...p, ...u }`. */
  function MergeProfile(p: UserProfile, u: ProfileUpdate): UserProfile {
    UserProfile(
      u.id.GetOr(p.id),
      u.name.GetOr(p.name),
      u.createdAt.GetOr(p.createdAt),
      u.hasCompletedOnboarding.GetOr(p.hasCompletedOnboarding),
      u.salary.GetOr(p.salary),
      u.otherIncome.GetOr(p.otherIncome),
      u.payDay.GetOr(p.payDay),
      u.hasAdvance.GetOr(p.hasAdvance),
      u.advanceDay.GetOr(p.advanceDay),
      u.savingsGoal.GetOr(p.savingsGoal),
      u.leisureBudget.GetOr(p.leisureBudget))
  }

  /** A `Partial<FixedExpense>`; it may even carry a new id. */
  datatype FixedExpenseUpdate = FixedExpenseUpdate(
    id: Option<string>, name: Option<string>, amount: Option<real>,
    category: Option<Category>, isActive: Option<bool>)

  /** `{ ...e, ...u }`. */
  function MergeFixedExpense(e: FixedExpense, u: FixedExpenseUpdate): FixedExpense {
    FixedExpense(
      u.id.GetOr(e.id), u.name.GetOr(e.name), u.amount.GetOr(e.amount),
      u.category.GetOr(e.category), u.isActive.GetOr(e.isActive))
  }

  /** Merging an empty update leaves the profile as it is, and merging twice is merging once. */
  lemma {:induction false} MergeProfileLaws(p: UserProfile, u: ProfileUpdate)
    ensures MergeProfile(p, NoProfileChange) == p
    ensures MergeProfile(MergeProfile(p, u), u) == MergeProfile(p, u)
  {
  }

  /** Merging twice is merging once, and only the fields the update carries change. */
  lemma {:induction false} MergeFixedExpenseLaws(e: FixedExpense, u: FixedExpenseUpdate)
    ensures MergeFixedExpense(MergeFixedExpense(e, u), u) == MergeFixedExpense(e, u)
    ensures u.amount.None? ==> MergeFixedExpense(e, u).amount == e.amount
    ensures u.isActive.None? ==> MergeFixedExpense(e, u).isActive == e.isActive
  {
  }
}
