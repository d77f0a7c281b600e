/**
 * The store of the local edition (finny/src/store/useStore.ts): the five
 * persisted fields and the actions that replace them.
 */
module Store {
  import opened Wrappers
  import opened Collections
  import opened Categories
  import opened Domain
  import Financials

  /** `Omit<FixedExpense, 'id'>`. */
  datatype FixedExpenseData = FixedExpenseData(name: string, amount: real, category: Category, isActive: bool)

  /** `Omit<TemporaryExpense, 'id'>`. */
  datatype TemporaryExpenseData = TemporaryExpenseData(
    name: string, amount: real, startMonth: int, startYear: int, endMonth: int, endYear: int, category: Category)

  /** The installment record stored under `id`. */
  function WithId(e: TemporaryExpenseData, id: string): (r: TemporaryExpense)
    ensures r.id == id && r.name == e.name && r.amount == e.amount && r.category == e.category
    ensures r.startMonth == e.startMonth && r.startYear == e.startYear && r.endMonth == e.endMonth && r.endYear == e.endYear
  {
    TemporaryExpense(id, e.name, e.amount, e.startMonth, e.startYear, e.endMonth, e.endYear, e.category)
  }

  /** `Omit<Expense, 'id' | 'createdAt'>`. */
  datatype ExpenseData = ExpenseData(
    description: string, amount: real, category: Category, date: Date, month: int, year: int)

  function FixedHasId(id: string): FixedExpense -> bool {
    (e: FixedExpense) => e.id == id
  }

  function FixedOtherId(id: string): FixedExpense -> bool {
    (e: FixedExpense) => e.id != id
  }

  function TemporaryOtherId(id: string): TemporaryExpense -> bool {
    (e: TemporaryExpense) => e.id != id
  }

  function ExpenseOtherId(id: string): Expense -> bool {
    (e: Expense) => e.id != id
  }

  /** `findIndex` of the first goal of (month, year), -1 when there is none. */
  function GoalIndex(goals: seq<MonthlyGoal>, month: int, year: int): (r: int)
    ensures -1 <= r < |goals|
    ensures r == -1 <==> forall i :: 0 <= i < |goals| ==> !(goals[i].month == month && goals[i].year == year)
    ensures r >= 0 ==> goals[r].month == month && goals[r].year == year &&
                       forall j :: 0 <= j < r ==> !(goals[j].month == month && goals[j].year == year)
    decreases |goals|
  {
    if goals == [] then -1
    else if goals[0].month == month && goals[0].year == year then 0
    else
      var rest := GoalIndex(goals[1..], month, year);
      if rest == -1 then -1
      else
        assert forall j :: 1 <= j < rest + 1 ==> goals[j] == goals[1..][j - 1];
        rest + 1
  }

  /** The `setMonthlyGoal` update: overwrite the first goal of the same period, or append. */
  function UpsertGoal(goals: seq<MonthlyGoal>, goal: MonthlyGoal): seq<MonthlyGoal> {
    var existingIndex := GoalIndex(goals, goal.month, goal.year);
    if existingIndex >= 0 then goals[existingIndex := goal] else goals + [goal]
  }

  /** No two goals share a (month, year). */
  predicate OneGoalPerPeriod(goals: seq<MonthlyGoal>) {
    forall i, j :: 0 <= i < j < |goals| ==> !(goals[i].month == goals[j].month && goals[i].year == goals[j].year)
  }

  /** The store: the five persisted fields, replaced by its actions. */
  class AppStore {
    var profile: Option<UserProfile>
    var fixedExpenses: seq<FixedExpense>
    var temporaryExpenses: seq<TemporaryExpense>
    var expenses: seq<Expense>
    var monthlyGoals: seq<MonthlyGoal>

    /** The store starts from the state `loadState` returned. */
    constructor(persisted: PersistedState)
      ensures State() == persisted
    {
      profile := persisted.profile;
      fixedExpenses := persisted.fixedExpenses;
      temporaryExpenses := persisted.temporaryExpenses;
      expenses := persisted.expenses;
      monthlyGoals := persisted.monthlyGoals;
    }

    /** The snapshot the persistence subscriber saves after every action. */
    function State(): PersistedState
      reads this
    {
      PersistedState(profile, fixedExpenses, temporaryExpenses, expenses, monthlyGoals)
    }

    /** `setProfile`. */
    method SetProfile(p: UserProfile)
      modifies this
      ensures State() == old(State()).(profile := Some(p))
    {
      profile := Some(p);
    }

    /** `updateProfile`: merges the update when there is a profile, and does nothing otherwise. */
    method UpdateProfile(updates: ProfileUpdate)
      modifies this
      ensures old(profile).None? ==> State() == old(State())
      ensures old(profile).Some? ==> State() == old(State()).(profile := Some(MergeProfile(old(profile).value, updates)))
    {
      if profile.Some? {
        profile := Some(MergeProfile(profile.value, updates));
      }
    }

    /** `addFixedExpense`: appends the record under the fresh id `newId`. */
    method AddFixedExpense(expense: FixedExpenseData, newId: string)
      modifies this
      ensures State() == old(State()).(fixedExpenses := old(fixedExpenses) +
                [FixedExpense(newId, expense.name, expense.amount, expense.category, expense.isActive)])
    {
      var newExpense := FixedExpense(newId, expense.name, expense.amount, expense.category, expense.isActive);
      fixedExpenses := fixedExpenses + [newExpense];
    }

    /** `updateFixedExpense`: merges `updates` into every record with that id. */
    method UpdateFixedExpense(id: string, updates: FixedExpenseUpdate)
      modifies this
      ensures State() == old(State()).(fixedExpenses :=
                MapWhere(old(fixedExpenses), FixedHasId(id), (e: FixedExpense) => MergeFixedExpense(e, updates)))
    {
      fixedExpenses := MapWhere(fixedExpenses, FixedHasId(id), (e: FixedExpense) => MergeFixedExpense(e, updates));
    }

    /** `removeFixedExpense`: drops every record with that id. */
    method RemoveFixedExpense(id: string)
      modifies this
      ensures State() == old(State()).(fixedExpenses := Filter(old(fixedExpenses), FixedOtherId(id)))
    {
      fixedExpenses := Filter(fixedExpenses, FixedOtherId(id));
    }

    /** `addTemporaryExpense`: appends the record under the fresh id `newId`. */
    method AddTemporaryExpense(expense: TemporaryExpenseData, newId: string)
      modifies this
      ensures State() == old(State()).(temporaryExpenses := old(temporaryExpenses) + [WithId(expense, newId)])
    {
      var newExpense := TemporaryExpense(newId, expense.name, expense.amount, expense.startMonth, expense.startYear,
                                         expense.endMonth, expense.endYear, expense.category);
      temporaryExpenses := temporaryExpenses + [newExpense];
    }

    /** `removeTemporaryExpense`: drops every record with that id. */
    method RemoveTemporaryExpense(id: string)
      modifies this
      ensures State() == old(State()).(temporaryExpenses := Filter(old(temporaryExpenses), TemporaryOtherId(id)))
    {
      temporaryExpenses := Filter(temporaryExpenses, TemporaryOtherId(id));
    }

    /** `addExpense`: appends the record under the fresh id `newId`, created at `now`. */
    method AddExpense(expense: ExpenseData, newId: string, now: int)
      modifies this
      ensures State() == old(State()).(expenses := old(expenses) +
                [Expense(newId, expense.description, expense.amount, expense.category,
                         expense.date, expense.month, expense.year, now)])
    {
      var newExpense := Expense(newId, expense.description, expense.amount, expense.category,
                                expense.date, expense.month, expense.year, now);
      expenses := expenses + [newExpense];
    }

    /** `removeExpense`: drops every record with that id. */
    method RemoveExpense(id: string)
      modifies this
      ensures State() == old(State()).(expenses := Filter(old(expenses), ExpenseOtherId(id)))
    {
      expenses := Filter(expenses, ExpenseOtherId(id));
    }

    /** `setMonthlyGoal`: copies the list and overwrites the first goal of the period, or appends. */
    method SetMonthlyGoal(goal: MonthlyGoal)
      modifies this
      ensures State() == old(State()).(monthlyGoals := UpsertGoal(old(monthlyGoals), goal))
    {
      var existingIndex := GoalIndex(monthlyGoals, goal.month, goal.year);
      if existingIndex >= 0 {
        var newGoals := monthlyGoals;
        newGoals := newGoals[existingIndex := goal];
        monthlyGoals := newGoals;
      } else {
        monthlyGoals := monthlyGoals + [goal];
      }
    }

    /** `resetAllData`: no profile and four empty collections. */
    method ResetAllData()
      modifies this
      ensures State() == DefaultState
    {
      profile := None;
      fixedExpenses := [];
      temporaryExpenses := [];
      expenses := [];
      monthlyGoals := [];
    }
  }

  /** `GoalIndex` finds the goal `getMonthlyGoal` reads: the index is -1 exactly when there is none. */
  lemma {:induction false} GoalIndexAgreesWithFind(goals: seq<MonthlyGoal>, month: int, year: int)
    ensures GoalIndex(goals, month, year) == -1 <==> Financials.FindGoal(goals, month, year).None?
    ensures GoalIndex(goals, month, year) >= 0 ==>
              Financials.FindGoal(goals, month, year) == Some(goals[GoalIndex(goals, month, year)])
  {
    var k := GoalIndex(goals, month, year);
    var r := Financials.FindGoal(goals, month, year);
    if k >= 0 {
      var i :| 0 <= i < |goals| && goals[i] == r.value && r.value.month == month && r.value.year == year &&
               forall j :: 0 <= j < i ==> !(goals[j].month == month && goals[j].year == year);
      if i < k {
        assert false;
      } else if i > k {
        assert false;
      }
    }
  }

  /** After the upsert the new goal is the one found for its period. */
  lemma {:induction false} UpsertGoalFound(goals: seq<MonthlyGoal>, goal: MonthlyGoal)
    ensures Financials.FindGoal(UpsertGoal(goals, goal), goal.month, goal.year) == Some(goal)
  {
    var r := UpsertGoal(goals, goal);
    var k := GoalIndex(goals, goal.month, goal.year);
    var at := if k >= 0 then k else |goals|;
    assert r[at] == goal;
    assert forall j :: 0 <= j < at ==> r[j] == goals[j];
    GoalIndexAgreesWithFind(r, goal.month, goal.year);
    assert GoalIndex(r, goal.month, goal.year) == at;
  }

  /** The list grows by one exactly when the period had no goal. */
  lemma {:induction false} UpsertGoalLength(goals: seq<MonthlyGoal>, goal: MonthlyGoal)
    ensures |UpsertGoal(goals, goal)| ==
              |goals| + (if Financials.FindGoal(goals, goal.month, goal.year).None? then 1 else 0)
  {
    GoalIndexAgreesWithFind(goals, goal.month, goal.year);
  }

  /** Every other period finds the goal it found before the upsert. */
  lemma {:induction false} UpsertGoalOthers(goals: seq<MonthlyGoal>, goal: MonthlyGoal, month: int, year: int)
    requires !(month == goal.month && year == goal.year)
    ensures Financials.FindGoal(UpsertGoal(goals, goal), month, year) == Financials.FindGoal(goals, month, year)
  {
    var r := UpsertGoal(goals, goal);
    assert forall i :: 0 <= i < |goals| ==> r[i] == goals[i] || r[i] == goal;
    assert forall i :: |goals| <= i < |r| ==> r[i] == goal;
    GoalIndexSameMatches(goals, r, month, year);
    GoalIndexAgreesWithFind(goals, month, year);
    GoalIndexAgreesWithFind(r, month, year);
    if GoalIndex(goals, month, year) >= 0 {
      assert r[GoalIndex(goals, month, year)] == goals[GoalIndex(goals, month, year)];
    }
  }

  /** Two lists that match a period at the same positions, the longer one nowhere past the shorter, find it at the same index. */
  lemma {:induction false} GoalIndexSameMatches(a: seq<MonthlyGoal>, b: seq<MonthlyGoal>, month: int, year: int)
    requires |a| <= |b|
    requires forall i :: 0 <= i < |a| ==> (a[i].month == month && a[i].year == year <==> b[i].month == month && b[i].year == year)
    requires forall i :: |a| <= i < |b| ==> !(b[i].month == month && b[i].year == year)
    ensures GoalIndex(a, month, year) == GoalIndex(b, month, year)
  {
    var ka := GoalIndex(a, month, year);
    var kb := GoalIndex(b, month, year);
    if ka == -1 {
      assert forall i :: 0 <= i < |b| ==> !(b[i].month == month && b[i].year == year);
    }
  }

  /** The upsert keeps at most one goal per period. */
  lemma {:induction false} UpsertKeepsOneGoalPerPeriod(goals: seq<MonthlyGoal>, goal: MonthlyGoal)
    requires OneGoalPerPeriod(goals)
    ensures OneGoalPerPeriod(UpsertGoal(goals, goal))
  {
    var r := UpsertGoal(goals, goal);
    var k := GoalIndex(goals, goal.month, goal.year);
    forall i, j | 0 <= i < j < |r| ensures !(r[i].month == r[j].month && r[i].year == r[j].year) {
      if k >= 0 {
        if i != k && j != k {
          assert r[i] == goals[i] && r[j] == goals[j];
        } else if i == k {
          assert r[j] == goals[j];
        } else {
          assert r[i] == goals[i];
        }
      } else if j == |goals| {
        assert r[i] == goals[i];
      } else {
        assert r[i] == goals[i] && r[j] == goals[j];
      }
    }
  }

  /**
   * Removing by id drops every record with that id, keeps every other record,
   * keeps the list when no record has it, and removing twice is removing once.
   */
  lemma {:induction false} RemoveFixedExactly(es: seq<FixedExpense>, id: string)
    ensures forall e :: e in Filter(es, FixedOtherId(id)) ==> e in es && e.id != id
    ensures forall e :: e in es && e.id != id ==> e in Filter(es, FixedOtherId(id))
    ensures (forall e :: e in es ==> e.id != id) ==> Filter(es, FixedOtherId(id)) == es
    ensures Filter(Filter(es, FixedOtherId(id)), FixedOtherId(id)) == Filter(es, FixedOtherId(id))
  {
    var p := FixedOtherId(id);
    var r := Filter(es, p);
    FilterMembers(es, p);
    FilterMembers(r, p);
    forall e | e in r ensures e in es && e.id != id {
      var i :| 0 <= i < |r| && r[i] == e;
      assert p(r[i]);
    }
    forall e | e in es && e.id != id ensures e in r {
      var i :| 0 <= i < |es| && es[i] == e;
      assert p(es[i]);
    }
    if forall e :: e in es ==> e.id != id {
      FilterAll(es, p);
    }
    FilterAll(r, p);
  }

  /** Removing a record from the end of the list is removing it from the front part, in order. */
  lemma {:induction false} RemoveKeepsOrder(a: seq<Expense>, b: seq<Expense>, id: string)
    ensures Filter(a + b, ExpenseOtherId(id)) == Filter(a, ExpenseOtherId(id)) + Filter(b, ExpenseOtherId(id))
  {
    FilterAppend(a, b, ExpenseOtherId(id));
  }

  /** Updating by id keeps the length, merges only the matching records and leaves the others as they were. */
  lemma {:induction false} UpdateFixedOnlyMatching(es: seq<FixedExpense>, id: string, updates: FixedExpenseUpdate)
    ensures var r := MapWhere(es, FixedHasId(id), (e: FixedExpense) => MergeFixedExpense(e, updates));
      |r| == |es| &&
      forall i :: 0 <= i < |es| ==>
        (es[i].id == id ==> r[i] == MergeFixedExpense(es[i], updates)) && (es[i].id != id ==> r[i] == es[i])
  {
  }

  /** Appending an active fixed expense raises the fixed total by its amount; an inactive one leaves it. */
  lemma {:induction false} AddFixedRaisesTotal(s: PersistedState, e: FixedExpense)
    ensures Financials.TotalFixed(s.(fixedExpenses := s.fixedExpenses + [e])) ==
              Financials.TotalFixed(s) + (if e.isActive then e.amount else 0.0)
  {
    var p := Financials.FixedIsActive;
    FilterAppend(s.fixedExpenses, [e], p);
    var tail := Filter([e], p);
    assert tail == (if p(e) then [e] else []) + Filter([], p);
    SumAppend(Filter(s.fixedExpenses, p), tail, Financials.FixedAmount);
    if p(e) {
      assert Sum(tail, Financials.FixedAmount) == e.amount + Sum([], Financials.FixedAmount);
    }
  }

  /** After a reset every aggregate is zero. */
  lemma {:induction false} ResetZeroesAggregates(month: int, year: int)
    ensures Financials.TotalIncome(DefaultState) == 0.0
    ensures Financials.MonthlyBalance(DefaultState, month, year) == 0.0
    ensures Financials.MonthlyGoalFor(DefaultState, month, year) == 0.0
  {
  }
}
