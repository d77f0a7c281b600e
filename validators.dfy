/** The field validators of finny/src/utils/validators.ts. */
module Validators {
  import opened Wrappers
  import opened Text

  /** A JavaScript number: `NaN`, an infinity, or a finite value. */
  datatype Number = NaN | Infinity | NegativeInfinity | Finite(value: real)

  const SalaryError := "Salário deve ser um valor positivo"
  const PayDayError := "Dia do pagamento deve ser entre 1 e 31"
  const AmountError := "Valor deve ser maior que zero"
  const DescriptionError := "Descrição é obrigatória"

  /** `isPositiveNumber`: above zero and not `NaN`. */
  predicate IsPositiveNumber(n: Number) {
    match n
    case NaN => false
    case Infinity => true
    case NegativeInfinity => false
    case Finite(v) => v > 0.0
  }

  /** `isNonNegativeNumber`: at least zero and not `NaN`. */
  predicate IsNonNegativeNumber(n: Number) {
    match n
    case NaN => false
    case Infinity => true
    case NegativeInfinity => false
    case Finite(v) => v >= 0.0
  }

  /** A positive number is non-negative, zero is only non-negative, and `NaN` is neither. */
  lemma {:induction false} PositiveIsNonNegative(n: Number)
    ensures IsPositiveNumber(n) ==> IsNonNegativeNumber(n)
    ensures IsNonNegativeNumber(n) && !IsPositiveNumber(n) <==> n == Finite(0.0)
    ensures !IsPositiveNumber(NaN) && !IsNonNegativeNumber(NaN)
  {
  }

  /** `Number.isInteger`: finite with no fractional part. */
  predicate IsInteger(n: Number) {
    n.Finite? && n.value.Floor as real == n.value
  }

  /** `isNotEmpty`: something is left after trimming. */
  predicate IsNotEmpty(s: string) {
    |Trim(s)| > 0
  }

  /** A string is not empty exactly when one of its characters is not whitespace. */
  lemma {:induction false} NotEmptyIff(s: string)
    ensures IsNotEmpty(s) <==> exists i :: 0 <= i < |s| && !IsWhitespace(s[i])
  {
    TrimEmpty(s);
  }

  /** An integer number within `low..high`. */
  predicate IntegerIn(n: Number, low: int, high: int) {
    IsInteger(n) && low as real <= n.value <= high as real
  }

  /** `isValidDayOfMonth`. */
  predicate IsValidDayOfMonth(n: Number) {
    IntegerIn(n, 1, 31)
  }

  /** `isValidMonth`. */
  predicate IsValidMonth(n: Number) {
    IntegerIn(n, 1, 12)
  }

  /** `isValidYear`. */
  predicate IsValidYear(n: Number) {
    IntegerIn(n, 2020, 2100)
  }

  /** The range checks accept exactly the integers of their range. */
  lemma {:induction false} IntegerInExactly(n: Number, low: int, high: int)
    ensures IntegerIn(n, low, high) <==> n.Finite? && n == Finite(n.value.Floor as real) && low <= n.value.Floor <= high
  {
  }

  /** Day 1..31, month 1..12 and year 2020..2100 are accepted exactly when the integer is in range; fractions never are. */
  lemma {:induction false} RangesAcceptExactly(k: int, x: real)
    requires x.Floor as real != x
    ensures IsValidDayOfMonth(Finite(k as real)) <==> 1 <= k <= 31
    ensures IsValidMonth(Finite(k as real)) <==> 1 <= k <= 12
    ensures IsValidYear(Finite(k as real)) <==> 2020 <= k <= 2100
    ensures !IsValidDayOfMonth(Finite(x)) && !IsValidMonth(Finite(x)) && !IsValidYear(Finite(x))
    ensures !IsValidDayOfMonth(NaN) && !IsValidDayOfMonth(Infinity)
  {
  }

  /** An optional field is acceptable when absent or valid. */
  predicate AbsentOr<T>(field: Option<T>, valid: T -> bool) {
    field.None? || valid(field.value)
  }

  /**
   * `validateProfile`: one message per present, invalid field, the salary
   * message first.
   */
  method ValidateProfile(salary: Option<Number>, payDay: Option<Number>) returns (errors: seq<string>)
    ensures SalaryError in errors <==> salary.Some? && !IsPositiveNumber(salary.value)
    ensures PayDayError in errors <==> payDay.Some? && !IsValidDayOfMonth(payDay.value)
    ensures errors == [] <==> AbsentOr(salary, IsPositiveNumber) && AbsentOr(payDay, IsValidDayOfMonth)
    ensures forall i :: 0 <= i < |errors| ==> errors[i] == SalaryError || errors[i] == PayDayError
    ensures |errors| <= 2 && (|errors| == 2 ==> errors == [SalaryError, PayDayError])
  {
    errors := [];
    if salary.Some? && !IsPositiveNumber(salary.value) {
      errors := errors + [SalaryError];
    }
    if payDay.Some? && !IsValidDayOfMonth(payDay.value) {
      errors := errors + [PayDayError];
    }
  }

  /**
   * `validateExpense`: one message per present, invalid field, the amount
   * message first.
   */
  method ValidateExpense(amount: Option<Number>, description: Option<string>) returns (errors: seq<string>)
    ensures AmountError in errors <==> amount.Some? && !IsPositiveNumber(amount.value)
    ensures DescriptionError in errors <==> description.Some? && !IsNotEmpty(description.value)
    ensures errors == [] <==> AbsentOr(amount, IsPositiveNumber) && AbsentOr(description, IsNotEmpty)
    ensures forall i :: 0 <= i < |errors| ==> errors[i] == AmountError || errors[i] == DescriptionError
    ensures |errors| <= 2 && (|errors| == 2 ==> errors == [AmountError, DescriptionError])
  {
    errors := [];
    if amount.Some? && !IsPositiveNumber(amount.value) {
      errors := errors + [AmountError];
    }
    if description.Some? && !IsNotEmpty(description.value) {
      errors := errors + [DescriptionError];
    }
  }
}
