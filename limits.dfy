/** The free/premium limit table and the usage predicates of src/utils/limits.ts. */
module Limits {
  import opened HostedTypes
  import opened Numbers

  type PosNat = n: nat | n > 0 witness 1

  /** A limit is a positive count, or `Infinity`. */
  datatype Limit = Bounded(n: PosNat) | Unbounded

  datatype PlanLimits = PlanLimits(
    transactionsPerMonth: Limit, fixedExpenses: Limit, temporaryExpenses: Limit, historyMonths: Limit)

  /** `PLAN_LIMITS[plan]`. */
  function LimitsOf(plan: Plan): PlanLimits {
    match plan
    case Free => PlanLimits(Bounded(30), Bounded(5), Bounded(3), Bounded(3))
    case Premium => PlanLimits(Unbounded, Unbounded, Unbounded, Unbounded)
  }

  /** `count < limit`, where every count is below `Infinity`. */
  predicate Below(count: int, limit: Limit) {
    match limit
    case Bounded(n) => count < n
    case Unbounded => true
  }

  predicate CanAddTransaction(plan: Plan, count: int) {
    Below(count, LimitsOf(plan).transactionsPerMonth)
  }

  predicate CanAddFixedExpense(plan: Plan, count: int) {
    Below(count, LimitsOf(plan).fixedExpenses)
  }

  predicate CanAddTemporaryExpense(plan: Plan, count: int) {
    Below(count, LimitsOf(plan).temporaryExpenses)
  }

  /** `getUsagePercentage`: the rounded share of the limit in use, at most 100. */
  function UsagePercentage(used: nat, limit: Limit): (r: int)
    ensures 0 <= r <= 100
    ensures limit.Unbounded? ==> r == 0
    ensures limit.Bounded? && used >= limit.n ==> r == 100
  {
    match limit
    case Unbounded => 0
    case Bounded(n) =>
      var rounded := RoundHalfUp(used as real / n as real * 100.0);
      assert used >= n ==> rounded >= 100 by {
        QuotientAtLeast(used as real, n as real, 1.0);
      }
      if rounded < 100 then rounded else 100
  }

  predicate IsNearLimit(used: nat, limit: Limit) {
    match limit
    case Unbounded => false
    case Bounded(_) => UsagePercentage(used, limit) >= 80
  }

  predicate HasReachedLimit(used: nat, limit: Limit) {
    match limit
    case Unbounded => false
    case Bounded(n) => used >= n
  }

  /** The free plan allows 30 transactions a month, 5 fixed and 3 temporary expenses and 3 months of history; premium has no limits. */
  lemma {:induction false} PlanTable(plan: Plan, count: int)
    ensures CanAddTransaction(plan, count) <==> plan.Premium? || count < 30
    ensures CanAddFixedExpense(plan, count) <==> plan.Premium? || count < 5
    ensures CanAddTemporaryExpense(plan, count) <==> plan.Premium? || count < 3
    ensures LimitsOf(plan).historyMonths == if plan.Free? then Bounded(3) else Unbounded
  {
  }

  /** Near the limit means at least 79.5% of it is used, i.e. 200·used ≥ 159·limit; never for an unbounded limit. */
  lemma {:induction false} NearLimitThreshold(used: nat, limit: Limit)
    ensures IsNearLimit(used, limit) <==> limit.Bounded? && 200 * used >= 159 * limit.n
  {
    if limit.Bounded? {
      var n := limit.n;
      var x := used as real / n as real * 100.0;
      QuotientAtLeast(used as real, n as real, 0.795);
      assert x >= 79.5 <==> 200 * used >= 159 * n;
    }
  }

  /** A reached limit is also a near one. */
  lemma {:induction false} ReachedImpliesNear(used: nat, limit: Limit)
    ensures HasReachedLimit(used, limit) ==> IsNearLimit(used, limit)
  {
    NearLimitThreshold(used, limit);
  }

  /** For the same count, a plan's limit is reached exactly when nothing more can be added. */
  lemma {:induction false} ReachedIffCannotAdd(plan: Plan, count: nat)
    ensures HasReachedLimit(count, LimitsOf(plan).transactionsPerMonth) <==> !CanAddTransaction(plan, count)
    ensures HasReachedLimit(count, LimitsOf(plan).fixedExpenses) <==> !CanAddFixedExpense(plan, count)
    ensures HasReachedLimit(count, LimitsOf(plan).temporaryExpenses) <==> !CanAddTemporaryExpense(plan, count)
  {
  }
}
