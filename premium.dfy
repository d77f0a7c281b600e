/** The usage summary of `usePremium`: per-kind usage against the plan's limits. */
module Premium {
  import opened Wrappers
  import opened HostedTypes
  import opened Limits
  import TransactionsHook
  import FixedExpensesHook

  datatype UsageInfo = UsageInfo(
    used: nat, limit: Limit, percentage: int, isNearLimit: bool, hasReachedLimit: bool)

  datatype PremiumInfo = PremiumInfo(
    plan: Plan,
    isPremium: bool,
    transactions: UsageInfo,
    fixedExpenses: UsageInfo,
    temporaryExpenses: UsageInfo,
    historyMonths: Limit,
    anyLimitNear: bool,
    anyLimitReached: bool,
    canExport: bool)

  /** `profile?.plan || 'free'`. */
  function PlanOf(profile: Option<ProfileRow>): Plan {
    if profile.Some? then profile.value.plan else Free
  }

  function Usage(used: nat, limit: Limit): UsageInfo {
    UsageInfo(used, limit, UsagePercentage(used, limit), IsNearLimit(used, limit), HasReachedLimit(used, limit))
  }

  /**
   * The memoised summary: transactions of the current month, active fixed
   * expenses and all temporary expenses, each measured against the plan.
   */
  function DeriveInfo(profile: Option<ProfileRow>, transactions: seq<Transaction>,
                      fixedExpenses: seq<FixedExpenseRow>, temporaryExpenses: seq<TemporaryExpenseRow>,
                      currentMonth: int, currentYear: int): PremiumInfo
  {
    var plan := PlanOf(profile);
    var limits := LimitsOf(plan);
    var tx := Usage(TransactionsHook.MonthlyCount(transactions, currentMonth, currentYear), limits.transactionsPerMonth);
    var fixed := Usage(FixedExpensesHook.ActiveCount(fixedExpenses), limits.fixedExpenses);
    var temporary := Usage(|temporaryExpenses|, limits.temporaryExpenses);
    PremiumInfo(
      plan, plan == Premium, tx, fixed, temporary, limits.historyMonths,
      tx.isNearLimit || fixed.isNearLimit || temporary.isNearLimit,
      tx.hasReachedLimit || fixed.hasReachedLimit || temporary.hasReachedLimit,
      plan == Premium)
  }

  /** Without a profile the plan is free; exporting is allowed exactly on premium. */
  lemma {:induction false} PlanAndExport(profile: Option<ProfileRow>, ts: seq<Transaction>, fs: seq<FixedExpenseRow>,
                      es: seq<TemporaryExpenseRow>, m: int, y: int)
    ensures profile.None? ==> DeriveInfo(profile, ts, fs, es, m, y).plan == Free
    ensures DeriveInfo(profile, ts, fs, es, m, y).canExport <==> DeriveInfo(profile, ts, fs, es, m, y).isPremium
    ensures DeriveInfo(profile, ts, fs, es, m, y).isPremium <==> profile.Some? && profile.value.plan == Premium
  {
  }

  /** The summary flags are the disjunction of the three per-kind flags. */
  lemma {:induction false} AnyFlagsAreDisjunctions(profile: Option<ProfileRow>, ts: seq<Transaction>, fs: seq<FixedExpenseRow>,
                                es: seq<TemporaryExpenseRow>, m: int, y: int)
    ensures var info := DeriveInfo(profile, ts, fs, es, m, y);
      (info.anyLimitNear <==> info.transactions.isNearLimit || info.fixedExpenses.isNearLimit || info.temporaryExpenses.isNearLimit) &&
      (info.anyLimitReached <==> info.transactions.hasReachedLimit || info.fixedExpenses.hasReachedLimit || info.temporaryExpenses.hasReachedLimit)
  {
  }

  /** On premium no flag is raised and every percentage is 0. */
  lemma {:induction false} PremiumHasNoLimits(profile: Option<ProfileRow>, ts: seq<Transaction>, fs: seq<FixedExpenseRow>,
                           es: seq<TemporaryExpenseRow>, m: int, y: int)
    requires profile.Some? && profile.value.plan == Premium
    ensures var info := DeriveInfo(profile, ts, fs, es, m, y);
      !info.anyLimitNear && !info.anyLimitReached &&
      info.transactions.percentage == 0 && info.fixedExpenses.percentage == 0 && info.temporaryExpenses.percentage == 0
  {
  }

  /**
   * A raised "reached" flag means the matching hook would refuse an add for
   * the very same count, and a lowered one that it would let it through; any
   * reached limit also counts as near.
   */
  lemma {:induction false} ReachedFlagsMatchGates(profile: ProfileRow, ts: seq<Transaction>, fs: seq<FixedExpenseRow>,
                               es: seq<TemporaryExpenseRow>, m: int, y: int)
    ensures var info := DeriveInfo(Some(profile), ts, fs, es, m, y);
      (info.transactions.hasReachedLimit <==> !CanAddTransaction(profile.plan, TransactionsHook.MonthlyCount(ts, m, y))) &&
      (info.fixedExpenses.hasReachedLimit <==> !CanAddFixedExpense(profile.plan, FixedExpensesHook.ActiveCount(fs))) &&
      (info.temporaryExpenses.hasReachedLimit <==> !CanAddTemporaryExpense(profile.plan, |es|)) &&
      (info.anyLimitReached ==> info.anyLimitNear)
  {
    var plan := profile.plan;
    ReachedIffCannotAdd(plan, TransactionsHook.MonthlyCount(ts, m, y));
    ReachedIffCannotAdd(plan, FixedExpensesHook.ActiveCount(fs));
    ReachedIffCannotAdd(plan, |es|);
    ReachedImpliesNear(TransactionsHook.MonthlyCount(ts, m, y), LimitsOf(plan).transactionsPerMonth);
    ReachedImpliesNear(FixedExpensesHook.ActiveCount(fs), LimitsOf(plan).fixedExpenses);
    ReachedImpliesNear(|es|, LimitsOf(plan).temporaryExpenses);
  }
}
