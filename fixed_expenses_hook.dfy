/** The `useFixedExpenses` hook: the local fixed-expense list, its mutators and its helpers. */
module FixedExpensesHook {
  import opened Wrappers
  import opened Collections
  import opened Categories
  import opened HostedTypes
  import opened Limits

  /** The messages recorded when a call throws something other than an `Error`. */
  const FetchFallback := "Erro ao carregar despesas fixas"
  const AddFallback := "Erro ao adicionar despesa fixa"
  const UpdateFallback := "Erro ao atualizar despesa fixa"
  const DeleteFallback := "Erro ao deletar despesa fixa"

  function RowAmount(e: FixedExpenseRow): real { e.amount }

  function RowCategory(e: FixedExpenseRow): Category { e.category }

  function IsActive(e: FixedExpenseRow): bool { e.isActive }

  function HasId(id: string): FixedExpenseRow -> bool {
    (e: FixedExpenseRow) => e.id == id
  }

  function OtherId(id: string): FixedExpenseRow -> bool {
    (e: FixedExpenseRow) => e.id != id
  }

  /** `getActiveExpenses`: the active rows, in list order. */
  function ActiveExpenses(es: seq<FixedExpenseRow>): (r: seq<FixedExpenseRow>)
    ensures forall i :: 0 <= i < |r| ==> r[i].isActive && r[i] in es
    ensures forall i :: 0 <= i < |es| && es[i].isActive ==> es[i] in r
  {
    FilterMembers(es, IsActive);
    Filter(es, IsActive)
  }

  /** The count the add gate compares with the plan limit. */
  function ActiveCount(es: seq<FixedExpenseRow>): nat {
    |ActiveExpenses(es)|
  }

  /**
   * The active rows keep list order and multiplicity: none of an empty list,
   * a single row exactly when it is active, and a concatenation gives the
   * active rows of its first part followed by those of its second.
   */
  lemma {:induction false} ActiveExpensesInOrder(a: seq<FixedExpenseRow>, b: seq<FixedExpenseRow>, e: FixedExpenseRow)
    ensures ActiveExpenses([]) == []
    ensures ActiveExpenses([e]) == (if e.isActive then [e] else [])
    ensures ActiveExpenses(a + b) == ActiveExpenses(a) + ActiveExpenses(b)
  {
    assert [e][1..] == [];
    FilterAppend(a, b, IsActive);
  }

  /** The count of active rows adds up over a concatenation, one for each active row. */
  lemma {:induction false} ActiveCountAppend(a: seq<FixedExpenseRow>, b: seq<FixedExpenseRow>, e: FixedExpenseRow)
    ensures ActiveCount(a + b) == ActiveCount(a) + ActiveCount(b)
    ensures ActiveCount(a + [e]) == ActiveCount(a) + (if e.isActive then 1 else 0)
  {
    ActiveExpensesInOrder(a, b, e);
    ActiveExpensesInOrder(a, [e], e);
  }

  /** `getMonthlyTotal`: the total of the active rows. */
  function MonthlyTotal(es: seq<FixedExpenseRow>): real {
    Sum(ActiveExpenses(es), RowAmount)
  }

  /** `getByCategory`: per-category totals of the active rows. */
  function ByCategory(es: seq<FixedExpenseRow>): map<Category, real> {
    Totals(ActiveExpenses(es), RowCategory, RowAmount)
  }

  /** `fixedExpenses.find(e => e.id === id)`: the first row with that id. */
  function FindById(es: seq<FixedExpenseRow>, id: string): (r: Option<FixedExpenseRow>)
    ensures r.None? <==> forall i :: 0 <= i < |es| ==> es[i].id != id
    ensures r.Some? ==> exists i :: 0 <= i < |es| && es[i] == r.value && r.value.id == id &&
                                    forall j :: 0 <= j < i ==> es[j].id != id
    decreases |es|
  {
    if es == [] then None
    else if es[0].id == id then Some(es[0])
    else
      var rest := FindById(es[1..], id);
      assert rest.Some? ==> exists i :: 0 <= i < |es[1..]| && es[1..][i] == rest.value && rest.value.id == id &&
                                        forall j :: 0 <= j < i ==> es[1..][j].id != id;
      if rest.Some? then
        var i :| 0 <= i < |es[1..]| && es[1..][i] == rest.value && rest.value.id == id &&
                 forall j :: 0 <= j < i ==> es[1..][j].id != id;
        assert es[i + 1] == rest.value;
        assert forall j :: 0 <= j < i + 1 ==> es[j].id != id by {
          forall j | 0 <= j < i + 1 ensures es[j].id != id {
            if j > 0 {
              assert es[j] == es[1..][j - 1];
            }
          }
        }
        rest
      else
        rest
  }

  /** The per-category values add up to the monthly total of the active rows. */
  lemma {:induction false} ByCategoryMatchesTotal(es: seq<FixedExpenseRow>)
    ensures ValueSum(ByCategory(es)) == MonthlyTotal(es)
  {
    TotalsSumToTotal(ActiveExpenses(es), RowCategory, RowAmount);
  }

  /** Inactive rows count neither toward the limit nor toward the total. */
  lemma {:induction false} InactiveRowsIgnored(e: FixedExpenseRow, es: seq<FixedExpenseRow>)
    ensures ActiveCount([e] + es) == ActiveCount(es) + (if e.isActive then 1 else 0)
    ensures MonthlyTotal([e] + es) == MonthlyTotal(es) + (if e.isActive then e.amount else 0.0)
  {
    FilterAppend([e], es, IsActive);
    var head := Filter([e], IsActive);
    assert head == (if IsActive(e) then [e] else []) + Filter([], IsActive);
    SumAppend(head, Filter(es, IsActive), RowAmount);
    assert Sum([e], RowAmount) == e.amount + Sum([], RowAmount);
  }

  /** With non-negative amounts, the total of the active rows is at most the total of all rows. */
  lemma {:induction false} ActiveTotalAtMostAll(es: seq<FixedExpenseRow>)
    requires forall e :: e in es ==> e.amount >= 0.0
    ensures MonthlyTotal(es) <= Sum(es, RowAmount)
  {
    SumFilterMonotone(es, RowAmount, (e: FixedExpenseRow) => true, IsActive);
    FilterAll(es, (e: FixedExpenseRow) => true);
  }

  /** The fixed-expense list held by the hook, with its mutators. */
  class FixedExpensesList {
    var fixedExpenses: seq<FixedExpenseRow>
    var loading: bool
    var error: Option<string>

    constructor()
      ensures fixedExpenses == [] && loading && error == None
    {
      fixedExpenses := [];
      loading := true;
      error := None;
    }

    /** `fetchFixedExpenses`: cleared without a user; otherwise replaced by the query's rows or its error recorded. */
    method Fetch(user: Option<string>, response: Result<seq<FixedExpenseRow>, Thrown>)
      modifies this
      ensures !loading
      ensures user.None? ==> fixedExpenses == [] && error == old(error)
      ensures user.Some? && response.Ok? ==> fixedExpenses == response.value && error == old(error)
      ensures user.Some? && response.Err? ==> fixedExpenses == old(fixedExpenses) && error == Some(MessageOf(response.error, FetchFallback))
    {
      loading := false;
      if user.None? {
        fixedExpenses := [];
        return;
      }
      match response
      case Ok(rows) => fixedExpenses := rows;
      case Err(t) => error := Some(MessageOf(t, FetchFallback));
    }

    /**
     * `addFixedExpense`: requires a user and a profile, refuses once the
     * number of active rows reaches the plan limit, and otherwise sends the
     * insert and prepends the returned row.
     */
    method Add(user: Option<string>, profile: Option<ProfileRow>, draft: FixedExpenseDraft,
               insert: FixedExpenseInsert -> Result<FixedExpenseRow, Thrown>)
      returns (r: AddOutcome<FixedExpenseRow>)
      modifies this
      ensures user.None? || profile.None? ==> r == AddError(NotAuthenticated)
      ensures user.Some? && profile.Some? ==>
        if !CanAddFixedExpense(profile.value.plan, ActiveCount(old(fixedExpenses))) then r == LimitReached
        else
          match insert(FixedExpenseInsert(user.value, draft))
          case Ok(row) => r == Added(row)
          case Err(t) => r == AddError(MessageOf(t, AddFallback))
      ensures if r.Added? then fixedExpenses == [r.data] + old(fixedExpenses) else fixedExpenses == old(fixedExpenses)
      ensures loading == old(loading) && error == old(error)
    {
      if user.None? || profile.None? {
        return AddError(NotAuthenticated);
      }
      var activeCount := ActiveCount(fixedExpenses);
      if !CanAddFixedExpense(profile.value.plan, activeCount) {
        return LimitReached;
      }
      var response := insert(FixedExpenseInsert(user.value, draft));
      match response
      case Ok(row) =>
        fixedExpenses := [row] + fixedExpenses;
        r := Added(row);
      case Err(t) =>
        r := AddError(MessageOf(t, AddFallback));
    }

    /** `updateFixedExpense`: after a successful update, merges `updates` into the rows with that id. */
    method Update(user: Option<string>, id: string, updates: FixedExpenseRowUpdate, failure: Option<Thrown>)
      returns (r: Outcome)
      modifies this
      ensures user.None? ==> r == Failure(NotAuthenticated)
      ensures user.Some? ==> r == OutcomeOf(failure, UpdateFallback)
      ensures if user.Some? && failure.None?
              then fixedExpenses == MapWhere(old(fixedExpenses), HasId(id), (e: FixedExpenseRow) => MergeFixedExpenseRow(e, updates))
              else fixedExpenses == old(fixedExpenses)
      ensures loading == old(loading) && error == old(error)
    {
      if user.None? {
        return Failure(NotAuthenticated);
      }
      if failure.None? {
        fixedExpenses := MapWhere(fixedExpenses, HasId(id), (e: FixedExpenseRow) => MergeFixedExpenseRow(e, updates));
      }
      r := OutcomeOf(failure, UpdateFallback);
    }

    /** `deleteFixedExpense`: after a successful delete, drops the rows with that id. */
    method Delete(user: Option<string>, id: string, failure: Option<Thrown>) returns (r: Outcome)
      modifies this
      ensures user.None? ==> r == Failure(NotAuthenticated)
      ensures user.Some? ==> r == OutcomeOf(failure, DeleteFallback)
      ensures if user.Some? && failure.None?
              then fixedExpenses == Filter(old(fixedExpenses), OtherId(id))
              else fixedExpenses == old(fixedExpenses)
      ensures loading == old(loading) && error == old(error)
    {
      if user.None? {
        return Failure(NotAuthenticated);
      }
      if failure.None? {
        fixedExpenses := Filter(fixedExpenses, OtherId(id));
      }
      r := OutcomeOf(failure, DeleteFallback);
    }

    /**
     * `toggleActive`: an unknown id is an error; otherwise the update that
     * negates the first matching row's `is_active` is issued.
     */
    method ToggleActive(user: Option<string>, id: string, failure: Option<Thrown>) returns (r: Outcome)
      modifies this
      ensures FindById(old(fixedExpenses), id).None? ==>
                r == Failure("Despesa não encontrada") && fixedExpenses == old(fixedExpenses)
      ensures FindById(old(fixedExpenses), id).Some? ==>
        var flipped := FixedExpenseRowUpdate(None, None, None, Some(!FindById(old(fixedExpenses), id).value.isActive));
        (user.None? ==> r == Failure(NotAuthenticated)) &&
        (user.Some? ==> r == OutcomeOf(failure, UpdateFallback)) &&
        if user.Some? && failure.None?
        then fixedExpenses == MapWhere(old(fixedExpenses), HasId(id), (e: FixedExpenseRow) => MergeFixedExpenseRow(e, flipped))
        else fixedExpenses == old(fixedExpenses)
      ensures loading == old(loading) && error == old(error)
    {
      var expense := FindById(fixedExpenses, id);
      if expense.None? {
        return Failure("Despesa não encontrada");
      }
      r := Update(user, id, FixedExpenseRowUpdate(None, None, None, Some(!expense.value.isActive)), failure);
    }
  }

  /** Toggling flips `is_active` of every row with the id when they agreed, and touches no other row. */
  lemma {:induction false} ToggleFlipsOnlyMatching(es: seq<FixedExpenseRow>, id: string, active: bool)
    ensures var r := MapWhere(es, HasId(id), (e: FixedExpenseRow) => MergeFixedExpenseRow(e, FixedExpenseRowUpdate(None, None, None, Some(!active))));
      forall i :: 0 <= i < |es| ==>
        (es[i].id == id ==> r[i] == es[i].(isActive := !active)) &&
        (es[i].id != id ==> r[i] == es[i])
  {
  }
}
