/** The `useTemporaryExpenses` hook: the local installment list, its mutators and its per-month helpers. */
module TemporaryExpensesHook {
  import opened Wrappers
  import opened Collections
  import opened Domain
  import opened HostedTypes
  import opened Limits

  /** The messages recorded when a call throws something other than an `Error`. */
  const FetchFallback := "Erro ao carregar despesas temporárias"
  const AddFallback := "Erro ao adicionar despesa temporária"
  const UpdateFallback := "Erro ao atualizar despesa temporária"
  const DeleteFallback := "Erro ao deletar despesa temporária"

  function RowAmount(e: TemporaryExpenseRow): real { e.amount }

  function HasId(id: string): TemporaryExpenseRow -> bool {
    (e: TemporaryExpenseRow) => e.id == id
  }

  function OtherId(id: string): TemporaryExpenseRow -> bool {
    (e: TemporaryExpenseRow) => e.id != id
  }

  /** `isActiveInMonth`: (month, year) lies in the row's period on the month index, both ends included. */
  predicate IsActiveInMonth(e: TemporaryExpenseRow, month: int, year: int) {
    var startDate := e.startYear * 12 + e.startMonth;
    var endDate := e.endYear * 12 + e.endMonth;
    var checkDate := year * 12 + month;
    checkDate >= startDate && checkDate <= endDate
  }

  function ActiveIn(month: int, year: int): TemporaryExpenseRow -> bool {
    (e: TemporaryExpenseRow) => IsActiveInMonth(e, month, year)
  }

  /** `getActiveForMonth`: the rows active in (month, year), in list order. */
  function ActiveForMonth(es: seq<TemporaryExpenseRow>, month: int, year: int): (r: seq<TemporaryExpenseRow>)
    ensures forall i :: 0 <= i < |r| ==> r[i] in es && IsActiveInMonth(r[i], month, year)
    ensures forall i :: 0 <= i < |es| && IsActiveInMonth(es[i], month, year) ==> es[i] in r
  {
    FilterMembers(es, ActiveIn(month, year));
    Filter(es, ActiveIn(month, year))
  }

  /**
   * The rows active in a month keep list order and multiplicity: none of an
   * empty list, a single row exactly when it is active then, and a
   * concatenation gives those of its first part followed by those of its second.
   */
  lemma {:induction false} ActiveForMonthInOrder(a: seq<TemporaryExpenseRow>, b: seq<TemporaryExpenseRow>,
                                                 e: TemporaryExpenseRow, month: int, year: int)
    ensures ActiveForMonth([], month, year) == []
    ensures ActiveForMonth([e], month, year) == (if IsActiveInMonth(e, month, year) then [e] else [])
    ensures ActiveForMonth(a + b, month, year) == ActiveForMonth(a, month, year) + ActiveForMonth(b, month, year)
  {
    assert [e][1..] == [];
    FilterAppend(a, b, ActiveIn(month, year));
  }

  /** `getMonthlyTotal`: the total of the rows active in (month, year). */
  function MonthlyTotal(es: seq<TemporaryExpenseRow>, month: int, year: int): real {
    Sum(ActiveForMonth(es, month, year), RowAmount)
  }

  /**
   * A row is active exactly in the months whose index lies between its start
   * and end indexes; a row that ends before it starts is never active, and a
   * one-month row is active only in its own month.
   */
  lemma {:induction false} ActivePeriod(e: TemporaryExpenseRow, month: int, year: int)
    ensures IsActiveInMonth(e, month, year) <==>
              MonthIndex(e.startMonth, e.startYear) <= MonthIndex(month, year) <= MonthIndex(e.endMonth, e.endYear)
    ensures MonthIndex(e.startMonth, e.startYear) > MonthIndex(e.endMonth, e.endYear) ==> !IsActiveInMonth(e, month, year)
    ensures e.startMonth == e.endMonth && e.startYear == e.endYear && 1 <= month <= 12 && 1 <= e.startMonth <= 12 ==>
              (IsActiveInMonth(e, month, year) <==> month == e.startMonth && year == e.startYear)
  {
  }

  /** With non-negative amounts the month's total is at most the total of all rows. */
  lemma {:induction false} MonthlyTotalAtMostAll(es: seq<TemporaryExpenseRow>, month: int, year: int)
    requires forall e :: e in es ==> e.amount >= 0.0
    ensures MonthlyTotal(es, month, year) <= Sum(es, RowAmount)
  {
    SumFilterMonotone(es, RowAmount, (e: TemporaryExpenseRow) => true, ActiveIn(month, year));
    FilterAll(es, (e: TemporaryExpenseRow) => true);
  }

  /** The installment list held by the hook, with its mutators. */
  class TemporaryExpensesList {
    var temporaryExpenses: seq<TemporaryExpenseRow>
    var loading: bool
    var error: Option<string>

    constructor()
      ensures temporaryExpenses == [] && loading && error == None
    {
      temporaryExpenses := [];
      loading := true;
      error := None;
    }

    /** `fetchTemporaryExpenses`: cleared without a user; otherwise replaced by the query's rows or its error recorded. */
    method Fetch(user: Option<string>, response: Result<seq<TemporaryExpenseRow>, Thrown>)
      modifies this
      ensures !loading
      ensures user.None? ==> temporaryExpenses == [] && error == old(error)
      ensures user.Some? && response.Ok? ==> temporaryExpenses == response.value && error == old(error)
      ensures user.Some? && response.Err? ==> temporaryExpenses == old(temporaryExpenses) && error == Some(MessageOf(response.error, FetchFallback))
    {
      loading := false;
      if user.None? {
        temporaryExpenses := [];
        return;
      }
      match response
      case Ok(rows) => temporaryExpenses := rows;
      case Err(t) => error := Some(MessageOf(t, FetchFallback));
    }

    /**
     * `addTemporaryExpense`: requires a user and a profile, refuses once the
     * number of rows (active or not) reaches the plan limit, and otherwise
     * sends the insert and prepends the returned row.
     */
    method Add(user: Option<string>, profile: Option<ProfileRow>, draft: TemporaryExpenseDraft,
               insert: TemporaryExpenseInsert -> Result<TemporaryExpenseRow, Thrown>)
      returns (r: AddOutcome<TemporaryExpenseRow>)
      modifies this
      ensures user.None? || profile.None? ==> r == AddError(NotAuthenticated)
      ensures user.Some? && profile.Some? ==>
        if !CanAddTemporaryExpense(profile.value.plan, |old(temporaryExpenses)|) then r == LimitReached
        else
          match insert(TemporaryExpenseInsert(user.value, draft))
          case Ok(row) => r == Added(row)
          case Err(t) => r == AddError(MessageOf(t, AddFallback))
      ensures if r.Added? then temporaryExpenses == [r.data] + old(temporaryExpenses)
              else temporaryExpenses == old(temporaryExpenses)
      ensures loading == old(loading) && error == old(error)
    {
      if user.None? || profile.None? {
        return AddError(NotAuthenticated);
      }
      if !CanAddTemporaryExpense(profile.value.plan, |temporaryExpenses|) {
        return LimitReached;
      }
      var response := insert(TemporaryExpenseInsert(user.value, draft));
      match response
      case Ok(row) =>
        temporaryExpenses := [row] + temporaryExpenses;
        r := Added(row);
      case Err(t) =>
        r := AddError(MessageOf(t, AddFallback));
    }

    /** `updateTemporaryExpense`: after a successful update, merges `updates` into the rows with that id. */
    method Update(user: Option<string>, id: string, updates: TemporaryExpenseRowUpdate, failure: Option<Thrown>)
      returns (r: Outcome)
      modifies this
      ensures user.None? ==> r == Failure(NotAuthenticated)
      ensures user.Some? ==> r == OutcomeOf(failure, UpdateFallback)
      ensures if user.Some? && failure.None?
              then temporaryExpenses == MapWhere(old(temporaryExpenses), HasId(id),
                                                 (e: TemporaryExpenseRow) => MergeTemporaryExpenseRow(e, updates))
              else temporaryExpenses == old(temporaryExpenses)
      ensures loading == old(loading) && error == old(error)
    {
      if user.None? {
        return Failure(NotAuthenticated);
      }
      if failure.None? {
        temporaryExpenses := MapWhere(temporaryExpenses, HasId(id),
                                      (e: TemporaryExpenseRow) => MergeTemporaryExpenseRow(e, updates));
      }
      r := OutcomeOf(failure, UpdateFallback);
    }

    /** `deleteTemporaryExpense`: after a successful delete, drops the rows with that id. */
    method Delete(user: Option<string>, id: string, failure: Option<Thrown>) returns (r: Outcome)
      modifies this
      ensures user.None? ==> r == Failure(NotAuthenticated)
      ensures user.Some? ==> r == OutcomeOf(failure, DeleteFallback)
      ensures if user.Some? && failure.None?
              then temporaryExpenses == Filter(old(temporaryExpenses), OtherId(id))
              else temporaryExpenses == old(temporaryExpenses)
      ensures loading == old(loading) && error == old(error)
    {
      if user.None? {
        return Failure(NotAuthenticated);
      }
      if failure.None? {
        temporaryExpenses := Filter(temporaryExpenses, OtherId(id));
      }
      r := OutcomeOf(failure, DeleteFallback);
    }
  }
}
