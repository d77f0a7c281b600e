/** The `useTransactions` hook: the local transaction list, its mutators and its per-month helpers. */
module TransactionsHook {
  import opened Wrappers
  import opened Collections
  import opened Categories
  import opened HostedTypes
  import opened Limits

  /** The messages recorded when a call throws something other than an `Error`. */
  const FetchFallback := "Erro ao carregar transações"
  const AddFallback := "Erro ao adicionar transação"
  const UpdateFallback := "Erro ao atualizar transação"
  const DeleteFallback := "Erro ao deletar transação"

  function TxAmount(t: Transaction): real { t.amount }

  function TxCategory(t: Transaction): Category { t.category }

  /** `t.month === month && t.year === year`. */
  function InMonth(month: int, year: int): Transaction -> bool {
    (t: Transaction) => t.month == month && t.year == year
  }

  /** The month filter together with `t.category === 'lazer'`. */
  function LeisureInMonth(month: int, year: int): Transaction -> bool {
    (t: Transaction) => t.month == month && t.year == year && t.category == Lazer
  }

  function HasId(id: string): Transaction -> bool {
    (t: Transaction) => t.id == id
  }

  function OtherId(id: string): Transaction -> bool {
    (t: Transaction) => t.id != id
  }

  /** `getMonthlyTotal`: the total of the rows of (month, year). */
  function MonthlyTotal(ts: seq<Transaction>, month: int, year: int): real {
    Sum(Filter(ts, InMonth(month, year)), TxAmount)
  }

  /** `getMonthlyByCategory`: the per-category totals of the rows of (month, year). */
  function MonthlyByCategory(ts: seq<Transaction>, month: int, year: int): map<Category, real> {
    Totals(Filter(ts, InMonth(month, year)), TxCategory, TxAmount)
  }

  /** `getLeisureTotal`: the total of the leisure rows of (month, year). */
  function LeisureTotal(ts: seq<Transaction>, month: int, year: int): real {
    Sum(Filter(ts, LeisureInMonth(month, year)), TxAmount)
  }

  /** `getMonthlyCount`: how many rows belong to (month, year). */
  function MonthlyCount(ts: seq<Transaction>, month: int, year: int): nat {
    |Filter(ts, InMonth(month, year))|
  }

  /** The per-category values add up to the monthly total, and each key is the category of some row of that month. */
  lemma {:induction false} ByCategoryMatchesTotal(ts: seq<Transaction>, month: int, year: int, c: Category)
    ensures ValueSum(MonthlyByCategory(ts, month, year)) == MonthlyTotal(ts, month, year)
    ensures c in MonthlyByCategory(ts, month, year) <==>
              exists i :: 0 <= i < |ts| && ts[i].month == month && ts[i].year == year && ts[i].category == c
  {
    TotalsSumToTotal(Filter(ts, InMonth(month, year)), TxCategory, TxAmount);
    TotalsKeysFiltered(ts, InMonth(month, year), TxCategory, TxAmount, c);
  }

  /** The leisure total is the monthly total of category `lazer` (its per-category value). */
  lemma {:induction false} LeisureIsLazerShare(ts: seq<Transaction>, month: int, year: int)
    ensures LeisureTotal(ts, month, year) == TotalOf(MonthlyByCategory(ts, month, year), Lazer)
  {
    var monthRows := Filter(ts, InMonth(month, year));
    TotalsValue(monthRows, TxCategory, TxAmount, Lazer);
    forall t: Transaction
      ensures LeisureInMonth(month, year)(t) == (InMonth(month, year)(t) && InCategory(TxCategory, Lazer)(t))
    {
      assert InCategory(TxCategory, Lazer)(t) == (TxCategory(t) == Lazer);
    }
    FilterFilter(ts, InMonth(month, year), InCategory(TxCategory, Lazer), LeisureInMonth(month, year));
  }

  /** With non-negative amounts the leisure total never exceeds the monthly total. */
  lemma {:induction false} LeisureAtMostMonthly(ts: seq<Transaction>, month: int, year: int)
    requires forall t :: t in ts ==> t.amount >= 0.0
    ensures LeisureTotal(ts, month, year) <= MonthlyTotal(ts, month, year)
  {
    SumFilterMonotone(ts, TxAmount, InMonth(month, year), LeisureInMonth(month, year));
  }

  /** Prepending a row of (month, year) raises that month's count and total by it; any other row leaves them. */
  lemma {:induction false} PrependEffect(t: Transaction, ts: seq<Transaction>, month: int, year: int)
    ensures MonthlyCount([t] + ts, month, year) == MonthlyCount(ts, month, year) + (if InMonth(month, year)(t) then 1 else 0)
    ensures MonthlyTotal([t] + ts, month, year) == MonthlyTotal(ts, month, year) + (if InMonth(month, year)(t) then t.amount else 0.0)
  {
    FilterAppend([t], ts, InMonth(month, year));
    var head := Filter([t], InMonth(month, year));
    assert head == (if InMonth(month, year)(t) then [t] else []) + Filter([], InMonth(month, year));
    SumAppend(head, Filter(ts, InMonth(month, year)), TxAmount);
    assert Sum([t], TxAmount) == t.amount + Sum([], TxAmount);
  }

  /** The transaction list held by the hook, with its mutators. */
  class TransactionsList {
    var transactions: seq<Transaction>
    var loading: bool
    var error: Option<string>

    constructor()
      ensures transactions == [] && loading && error == None
    {
      transactions := [];
      loading := true;
      error := None;
    }

    /**
     * `fetchTransactions`: without a user the list is cleared; otherwise the
     * rows the query returns replace it, or its error message is recorded.
     * The history cutoff of the query is applied by the backend.
     */
    method Fetch(user: Option<string>, response: Result<seq<Transaction>, Thrown>)
      modifies this
      ensures !loading
      ensures user.None? ==> transactions == [] && error == old(error)
      ensures user.Some? && response.Ok? ==> transactions == response.value && error == old(error)
      ensures user.Some? && response.Err? ==> transactions == old(transactions) && error == Some(MessageOf(response.error, FetchFallback))
    {
      if user.None? {
        transactions := [];
        loading := false;
        return;
      }
      loading := false;
      match response
      case Ok(rows) => transactions := rows;
      case Err(t) => error := Some(MessageOf(t, FetchFallback));
    }

    /**
     * `addTransaction`: requires a user and a profile, refuses once the plan's
     * monthly limit is reached for the current month, and otherwise sends the
     * insert and prepends the returned row.
     */
    method Add(user: Option<string>, profile: Option<ProfileRow>, draft: TransactionDraft,
               currentMonth: int, currentYear: int,
               insert: TransactionInsert -> Result<Transaction, Thrown>)
      returns (r: AddOutcome<Transaction>)
      modifies this
      ensures user.None? || profile.None? ==> r == AddError(NotAuthenticated)
      ensures user.Some? && profile.Some? ==>
        var count := MonthlyCount(old(transactions), currentMonth, currentYear);
        if !CanAddTransaction(profile.value.plan, count) then r == LimitReached
        else
          match insert(TransactionInsert(user.value, draft))
          case Ok(row) => r == Added(row)
          case Err(t) => r == AddError(MessageOf(t, AddFallback))
      ensures if r.Added? then transactions == [r.data] + old(transactions) else transactions == old(transactions)
      ensures loading == old(loading) && error == old(error)
    {
      if user.None? || profile.None? {
        return AddError(NotAuthenticated);
      }
      var monthCount := MonthlyCount(transactions, currentMonth, currentYear);
      if !CanAddTransaction(profile.value.plan, monthCount) {
        return LimitReached;
      }
      var response := insert(TransactionInsert(user.value, draft));
      match response
      case Ok(row) =>
        transactions := [row] + transactions;
        r := Added(row);
      case Err(t) =>
        r := AddError(MessageOf(t, AddFallback));
    }

    /** `updateTransaction`: after a successful update, merges `updates` into the rows with that id. */
    method Update(user: Option<string>, id: string, updates: TransactionUpdate, failure: Option<Thrown>)
      returns (r: Outcome)
      modifies this
      ensures user.None? ==> r == Failure(NotAuthenticated)
      ensures user.Some? ==> r == OutcomeOf(failure, UpdateFallback)
      ensures if user.Some? && failure.None?
              then transactions == MapWhere(old(transactions), HasId(id), (t: Transaction) => MergeTransaction(t, updates))
              else transactions == old(transactions)
      ensures loading == old(loading) && error == old(error)
    {
      if user.None? {
        return Failure(NotAuthenticated);
      }
      if failure.None? {
        transactions := MapWhere(transactions, HasId(id), (t: Transaction) => MergeTransaction(t, updates));
      }
      r := OutcomeOf(failure, UpdateFallback);
    }

    /** `deleteTransaction`: after a successful delete, drops the rows with that id. */
    method Delete(user: Option<string>, id: string, failure: Option<Thrown>) returns (r: Outcome)
      modifies this
      ensures user.None? ==> r == Failure(NotAuthenticated)
      ensures user.Some? ==> r == OutcomeOf(failure, DeleteFallback)
      ensures if user.Some? && failure.None?
              then transactions == Filter(old(transactions), OtherId(id))
              else transactions == old(transactions)
      ensures loading == old(loading) && error == old(error)
    {
      if user.None? {
        return Failure(NotAuthenticated);
      }
      if failure.None? {
        transactions := Filter(transactions, OtherId(id));
      }
      r := OutcomeOf(failure, DeleteFallback);
    }
  }

  /** A row merge keeps every row's id, so updating never adds or loses a row with a given id. */
  lemma {:induction false} UpdateKeepsIds(ts: seq<Transaction>, id: string, updates: TransactionUpdate)
    ensures forall i :: 0 <= i < |ts| ==>
      MapWhere(ts, HasId(id), (t: Transaction) => MergeTransaction(t, updates))[i].id == ts[i].id
  {
  }

  /** After a delete no row has the id, and every row with another id is still there. */
  lemma {:induction false} DeleteRemovesExactly(ts: seq<Transaction>, id: string)
    ensures forall t :: t in Filter(ts, OtherId(id)) ==> t.id != id
    ensures forall t :: t in ts && t.id != id ==> t in Filter(ts, OtherId(id))
  {
    var r := Filter(ts, OtherId(id));
    FilterMembers(ts, OtherId(id));
    forall t | t in r ensures t.id != id {
      var i :| 0 <= i < |r| && r[i] == t;
      assert OtherId(id)(r[i]);
    }
    forall t | t in ts && t.id != id ensures t in r {
      var i :| 0 <= i < |ts| && ts[i] == t;
      assert OtherId(id)(ts[i]);
    }
  }
}
