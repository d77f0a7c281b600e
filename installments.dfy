/**
 * The installment form of src/components/settings/TemporaryExpenses.tsx:
 * the end month of a purchase paid in `parcelas` monthly installments, the
 * count of installments still to pay, and the form that adds the record.
 */
module Installments {
  import opened Wrappers
  import opened Categories
  import opened Domain
  import opened Text
  import opened Formatters
  import Store

  /**
   * `parseInt(s)`: leading whitespace skipped, an optional sign, then the
   * leading decimal digits; `None` stands for `NaN` (no digit).
   */
  function ParseInt(s: string): Option<int> {
    var t := TrimStart(s);
    var negative := t != [] && t[0] == '-';
    var body := if t != [] && (t[0] == '-' || t[0] == '+') then t[1..] else t;
    var digits := LeadingDigits(body);
    if digits == [] then None
    else Some(if negative then -(DigitsValue(digits) as int) else DigitsValue(digits) as int)
  }

  /** Reading the digits of a natural number gives the number back. */
  lemma {:induction false} ParseIntOfNat(n: nat)
    ensures ParseInt(NatToString(n)) == Some(n)
  {
    var s := NatToString(n);
    assert IsDigit(s[0]);
    assert !IsWhitespace(s[0]);
    assert TrimStart(s) == s;
    assert s[0] != '-' && s[0] != '+';
    LeadingDigitsOf(s, []);
    assert s + [] == s;
    assert LeadingDigits(s) == s;
  }

  /** A count with no leading digit is `NaN`. */
  lemma {:induction false} ParseIntEmpty()
    ensures ParseInt("") == None
  {
  }

  /**
   * The last month of the installments, by arithmetic on the month index: the
   * month (1..12) and year whose index is `parcelas - 1` months past the
   * current one, or the unnormalised month when it is not past December.
   */
  function EndPeriod(currentMonth: int, currentYear: int, parcelas: int): (int, int) {
    var last := currentMonth + parcelas - 1;
    if last <= 12 then (last, currentYear)
    else ((last - 1) % 12 + 1, currentYear + (last - 1) / 12)
  }

  /** A month in 1..12 and a year are the only pair with their index. */
  lemma {:induction false} MonthIndexDecomposes(month: int, year: int)
    requires 1 <= month <= 12
    ensures (MonthIndex(month, year) - 1) % 12 + 1 == month
    ensures (MonthIndex(month, year) - 1) / 12 == year
  {
    var n := MonthIndex(month, year) - 1;
    assert n == year * 12 + (month - 1);
  }

  /**
   * `handleAdd`'s loop: starting from `currentMonth + parcelas - 1` it takes
   * twelve months away and adds a year until the month is at most 12. The
   * month index never changes, and the result is the reference end period.
   */
  method EndOfInstallments(currentMonth: int, currentYear: int, parcelas: int) returns (endMonth: int, endYear: int)
    ensures MonthIndex(endMonth, endYear) == MonthIndex(currentMonth, currentYear) + parcelas - 1
    ensures endMonth <= 12 && endYear >= currentYear
    ensures (endMonth, endYear) == EndPeriod(currentMonth, currentYear, parcelas)
  {
    endMonth := currentMonth + parcelas - 1;
    endYear := currentYear;
    while endMonth > 12
      invariant MonthIndex(endMonth, endYear) == MonthIndex(currentMonth, currentYear) + parcelas - 1
      invariant endYear >= currentYear
      invariant currentMonth + parcelas - 1 > 12 ==> endMonth >= 1
      invariant currentMonth + parcelas - 1 <= 12 ==> endMonth == currentMonth + parcelas - 1 && endYear == currentYear
      decreases endMonth
    {
      endMonth := endMonth - 12;
      endYear := endYear + 1;
    }
    if currentMonth + parcelas - 1 > 12 {
      MonthIndexDecomposes(endMonth, endYear);
      assert MonthIndex(endMonth, endYear) == currentYear * 12 + (currentMonth + parcelas - 1);
    }
  }

  /** From a month in 1..12 with at least one installment the end month is in 1..12, `parcelas - 1` months on. */
  lemma {:induction false} EndPeriodInRange(currentMonth: int, currentYear: int, parcelas: int)
    requires 1 <= currentMonth <= 12 && parcelas >= 1
    ensures var (m, y) := EndPeriod(currentMonth, currentYear, parcelas);
      1 <= m <= 12 && y >= currentYear &&
      MonthIndex(m, y) == MonthIndex(currentMonth, currentYear) + parcelas - 1
  {
    var last := currentMonth + parcelas - 1;
    if last > 12 {
      var n := last - 1;
      assert n == (n / 12) * 12 + n % 12;
    }
  }

  /** `getRemainingParcelas`: the installments from the current month to the last one, never below zero. */
  function RemainingParcelas(e: TemporaryExpense, currentMonth: int, currentYear: int): (r: int)
    ensures r >= 0
    ensures r == 0 <==> MonthIndex(e.endMonth, e.endYear) < MonthIndex(currentMonth, currentYear)
  {
    var current := MonthIndex(currentMonth, currentYear);
    var last := MonthIndex(e.endMonth, e.endYear);
    if last - current + 1 > 0 then last - current + 1 else 0
  }

  /** A record added this month with `parcelas >= 1` installments has all of them still to pay. */
  lemma {:induction false} RemainingOfNew(e: TemporaryExpense, currentMonth: int, currentYear: int, parcelas: int)
    requires parcelas >= 1
    requires (e.endMonth, e.endYear) == EndPeriod(currentMonth, currentYear, parcelas)
    requires 1 <= currentMonth <= 12
    ensures RemainingParcelas(e, currentMonth, currentYear) == parcelas
  {
    EndPeriodInRange(currentMonth, currentYear, parcelas);
  }

  /** A month later one installment fewer remains, until none does. */
  lemma {:induction false} RemainingCountsDown(e: TemporaryExpense, month: int, year: int, nextMonth: int, nextYear: int)
    requires MonthIndex(nextMonth, nextYear) == MonthIndex(month, year) + 1
    ensures RemainingParcelas(e, nextMonth, nextYear) ==
              if RemainingParcelas(e, month, year) > 0 then RemainingParcelas(e, month, year) - 1 else 0
  {
  }

  const DefaultParcelas := "12"

  /** The add-installment form's state. */
  class TemporaryExpenseForm {
    var showAdd: bool
    var newName: string
    var newAmount: string
    var newCategory: Category
    var totalParcelas: string

    /** The form opens empty, in category `outros`, with twelve installments. */
    constructor()
      ensures !showAdd && newName == "" && newAmount == "" && newCategory == Outros && totalParcelas == DefaultParcelas
    {
      showAdd := false;
      newName := "";
      newAmount := "";
      newCategory := Outros;
      totalParcelas := DefaultParcelas;
    }

    /** The button's guard: name, amount and count all filled in. */
    function CanAdd(): bool
      reads this
    {
      newName != "" && newAmount != "" && totalParcelas != ""
    }

    /** The record `handleAdd` sends for a count of `parcelas`. */
    function Record(currentMonth: int, currentYear: int, parcelas: int): Store.TemporaryExpenseData
      reads this
    {
      var end := EndPeriod(currentMonth, currentYear, parcelas);
      Store.TemporaryExpenseData(newName, ParseInputToNumber(newAmount), currentMonth, currentYear, end.0, end.1, newCategory)
    }

    /** The five `set…` calls after an add. */
    method Reset()
      modifies this
      ensures !showAdd && newName == "" && newAmount == "" && newCategory == Outros && totalParcelas == DefaultParcelas
    {
      newName := "";
      newAmount := "";
      newCategory := Outros;
      totalParcelas := DefaultParcelas;
      showAdd := false;
    }

    /**
     * `handleAdd`: with every field filled in, adds the record starting this
     * month and ending at the loop's end period, then resets the form; with
     * a field empty nothing happens.
     */
    method HandleAdd(store: Store.AppStore, currentMonth: int, currentYear: int, newId: string)
      modifies this, store
      ensures !old(CanAdd()) ==>
        store.State() == old(store.State()) && showAdd == old(showAdd) && newName == old(newName) &&
        newAmount == old(newAmount) && newCategory == old(newCategory) && totalParcelas == old(totalParcelas)
      ensures old(CanAdd()) && ParseInt(old(totalParcelas)).Some? ==>
        store.State() == old(store.State()).(temporaryExpenses := old(store.temporaryExpenses) +
          [Store.WithId(old(Record(currentMonth, currentYear, ParseInt(totalParcelas).value)), newId)])
      ensures old(CanAdd()) && ParseInt(old(totalParcelas)).None? ==> store.State() == old(store.State())
      ensures old(CanAdd()) ==>
        !showAdd && newName == "" && newAmount == "" && newCategory == Outros && totalParcelas == DefaultParcelas
    {
      if !CanAdd() {
        return;
      }
      var count := ParseInt(totalParcelas);
      if count.Some? {
        var endMonth, endYear := EndOfInstallments(currentMonth, currentYear, count.value);
        var record := Store.TemporaryExpenseData(newName, ParseInputToNumber(newAmount),
                                                 currentMonth, currentYear, endMonth, endYear, newCategory);
        assert record == Record(currentMonth, currentYear, count.value);
        store.AddTemporaryExpense(record, newId);
      }
      Reset();
    }
  }
}
