/**
 * The input parsers and month formatters of finny/src/utils/formatters.ts.
 * `parseFloat` and `toFixed(2)` are written out over decimal digit strings.
 */
module Formatters {
  import opened Wrappers
  import opened Collections
  import opened Text
  import opened Numbers
  import opened Domain

  function DigitValue(c: char): nat
    requires IsDigit(c)
  {
    c as int - '0' as int
  }

  function DigitChar(d: nat): (c: char)
    requires d < 10
    ensures IsDigit(c) && DigitValue(c) == d
  {
    ('0' as int + d) as char
  }

  /** The value of a decimal digit string, most significant digit first. */
  function DigitsValue(s: string): nat
    requires AllDigits(s)
    decreases |s|
  {
    if s == [] then 0 else DigitsValue(s[..|s| - 1]) * 10 + DigitValue(s[|s| - 1])
  }

  function Pow10(n: nat): (r: nat)
    ensures r >= 1
  {
    if n == 0 then 1 else 10 * Pow10(n - 1)
  }

  /** The decimal digits of `n` without leading zeros ("0" for 0). */
  function NatToString(n: nat): (r: string)
    ensures |r| >= 1 && AllDigits(r)
    ensures DigitsValue(r) == n
    ensures |r| > 1 ==> r[0] != '0'
    decreases n
  {
    if n < 10 then [DigitChar(n)]
    else
      var r := NatToString(n / 10) + [DigitChar(n % 10)];
      assert r[..|r| - 1] == NatToString(n / 10);
      r
  }

  /** The longest prefix of `s` made of digits. */
  function LeadingDigits(s: string): (r: string)
    ensures |r| <= |s| && AllDigits(r) && r == s[..|r|]
    ensures |r| < |s| ==> !IsDigit(s[|r|])
    decreases |s|
  {
    if s != [] && IsDigit(s[0]) then
      var rest := LeadingDigits(s[1..]);
      assert [s[0]] + rest == s[..|rest| + 1];
      [s[0]] + rest
    else []
  }

  /**
   * `parseFloat` on a string of digits, '.', '-', '+' and ',': an optional
   * sign, then digits with at most one '.', at least one digit in all;
   * `None` stands for `NaN`. The value is read from the longest such prefix.
   */
  function ParseFloat(s: string): Option<real> {
    if s != [] && s[0] == '-' then
      match ParseUnsigned(s[1..])
      case None => None
      case Some(m) => Some(-m)
    else if s != [] && s[0] == '+' then ParseUnsigned(s[1..])
    else ParseUnsigned(s)
  }

  /** The unsigned part of `parseFloat`: digits, then optionally '.' and more digits. */
  function ParseUnsigned(body: string): Option<real> {
    var whole := LeadingDigits(body);
    var after := body[|whole|..];
    var fraction := if after != [] && after[0] == '.' then LeadingDigits(after[1..]) else [];
    if |whole| + |fraction| == 0 then None
    else Some(DigitsValue(whole) as real + FractionValue(fraction))
  }

  /** The value of the digits after the decimal point. */
  function FractionValue(digits: string): real
    requires AllDigits(digits)
  {
    DigitsValue(digits) as real / Pow10(|digits|) as real
  }

  /** The characters the input cleaner keeps: digits, ',', '.' and '-'. */
  function KeptByCleaner(c: char): bool {
    IsDigit(c) || c == ',' || c == '.' || c == '-'
  }

  /** `s.replace(a, b)` with a one-character pattern: only the first occurrence is replaced. */
  function ReplaceFirst(s: string, a: char, b: char): (r: string)
    ensures |r| == |s|
    ensures a !in s ==> r == s
    ensures forall i :: 0 <= i < |s| && s[i] != a ==> r[i] == s[i]
    ensures forall i :: 0 <= i < |s| ==> r[i] == s[i] || r[i] == b
    decreases |s|
  {
    if s == [] then []
    else if s[0] == a then [b] + s[1..]
    else [s[0]] + ReplaceFirst(s[1..], a, b)
  }

  /** Replacing the first `a` in `x + [a] + y` when `x` has no `a` touches only that separator. */
  lemma {:induction false} ReplaceFirstAt(x: string, y: string, a: char, b: char)
    requires a !in x
    ensures ReplaceFirst(x + [a] + y, a, b) == x + [b] + y
    decreases |x|
  {
    if x != [] {
      assert (x + [a] + y)[1..] == x[1..] + [a] + y;
      ReplaceFirstAt(x[1..], y, a, b);
    }
  }

  /** The cleaned text `parseInputToNumber` hands to `parseFloat`. */
  function CleanInput(value: string): string {
    ReplaceFirst(Filter(value, KeptByCleaner), ',', '.')
  }

  /** `parseInputToNumber`: the number the cleaned input starts with, and 0 when it starts with none. */
  function ParseInputToNumber(value: string): (r: real)
    ensures ParseFloat(CleanInput(value)).None? ==> r == 0.0
    ensures ParseFloat(CleanInput(value)).Some? ==> r == ParseFloat(CleanInput(value)).value
  {
    match ParseFloat(CleanInput(value))
    case None => 0.0
    case Some(parsed) => parsed
  }

  /** The absolute value. */
  function Magnitude(value: real): (r: real)
    ensures r >= 0.0 && (r == value || r == -value)
  {
    if value < 0.0 then -value else value
  }

  /** The magnitude rounded to whole cents, as `toFixed(2)` rounds it. */
  function Cents(value: real): nat {
    var n := RoundHalfUp(Magnitude(value) * 100.0);
    assert n >= 0;
    n
  }

  /** The sign `toFixed` writes in front of a negative value. */
  function SignText(value: real): (r: string)
    ensures r == "" || r == "-"
  {
    if value < 0.0 then "-" else ""
  }

  /** The two digits of the cents' remainder. */
  function CentDigits(cents: nat): (r: string)
    ensures |r| == 2 && AllDigits(r)
  {
    [DigitChar((cents % 100) / 10), DigitChar(cents % 10)]
  }

  /** `value.toFixed(2)`: the sign, the integer part, '.', and two digits of the magnitude rounded to cents. */
  function ToFixed2(value: real): string {
    SignText(value) + NatToString(Cents(value) / 100) + "." + CentDigits(Cents(value))
  }

  /** `formatNumberForInput`: '' for 0, otherwise `toFixed(2)` with its '.' turned into ','. */
  function FormatNumberForInput(value: real): string {
    if value == 0.0 then "" else ReplaceFirst(ToFixed2(value), '.', ',')
  }

  /** Whole cents: `100 * v` is an integer. */
  predicate CentsExact(v: real) {
    (v * 100.0).Floor as real == v * 100.0
  }

  /** The leading digits of a digit string followed by a non-digit are that string. */
  lemma {:induction false} LeadingDigitsOf(ds: string, rest: string)
    requires AllDigits(ds)
    requires rest == [] || !IsDigit(rest[0])
    ensures LeadingDigits(ds + rest) == ds
    decreases |ds|
  {
    if ds != [] {
      assert (ds + rest)[1..] == ds[1..] + rest;
      LeadingDigitsOf(ds[1..], rest);
    }
  }

  /** The formatted value is a sign, the integer digits, ',' and two digits. */
  lemma {:induction false} FormatShape(v: real)
    requires v != 0.0
    ensures FormatNumberForInput(v) == SignText(v) + NatToString(Cents(v) / 100) + "," + CentDigits(Cents(v))
  {
    var prefix := SignText(v) + NatToString(Cents(v) / 100);
    var two := CentDigits(Cents(v));
    assert ToFixed2(v) == prefix + ['.'] + two;
    NoSeparatorInNumber(v, '.');
    ReplaceFirstAt(prefix, two, '.', ',');
  }

  /** The sign and integer digits hold neither separator. */
  lemma {:induction false} NoSeparatorInNumber(v: real, c: char)
    requires c == '.' || c == ','
    ensures c !in SignText(v) + NatToString(Cents(v) / 100)
  {
    var whole := NatToString(Cents(v) / 100);
    assert forall i :: 0 <= i < |whole| ==> IsDigit(whole[i]);
  }

  /** What `parseFloat` reads from digits, '.' and digits. */
  lemma {:induction false} ParseUnsignedPoint(whole: string, fraction: string)
    requires |whole| >= 1 && AllDigits(whole) && AllDigits(fraction)
    ensures ParseUnsigned(whole + "." + fraction) == Some(DigitsValue(whole) as real + FractionValue(fraction))
  {
    var tail := ['.'] + fraction;
    var body := whole + tail;
    assert body == whole + "." + fraction;
    LeadingDigitsOf(whole, tail);
    assert tail[1..] == fraction;
    LeadingDigitsOf(fraction, []);
    assert fraction + [] == fraction;
    ParseUnsignedOf(body, whole, tail, fraction);
  }

  /** `ParseUnsigned` unfolded once, given its three pieces. */
  lemma {:induction false} ParseUnsignedOf(body: string, whole: string, after: string, fraction: string)
    requires |whole| >= 1 && LeadingDigits(body) == whole && body == whole + after
    requires after != [] && after[0] == '.' && LeadingDigits(after[1..]) == fraction
    ensures ParseUnsigned(body) == Some(DigitsValue(whole) as real + FractionValue(fraction))
  {
    assert body[|whole|..] == after;
  }

  /** Two fraction digits are hundredths. */
  lemma {:induction false} HundredthOf(digits: string)
    requires |digits| == 2 && AllDigits(digits)
    ensures FractionValue(digits) == DigitsValue(digits) as real / 100.0
  {
    assert Pow10(2) == 100 by {
      assert Pow10(1) == 10;
    }
  }

  /** The sign in front of a parsed magnitude. */
  lemma {:induction false} ParseSigned(sign: string, body: string)
    requires sign == "" || sign == "-"
    requires body != [] && IsDigit(body[0])
    ensures ParseFloat(sign + body) ==
              if sign == "-" then (if ParseUnsigned(body).Some? then Some(-ParseUnsigned(body).value) else None)
              else ParseUnsigned(body)
  {
    if sign == "-" {
      assert (sign + body)[1..] == body;
    } else {
      assert sign + body == body;
    }
  }

  /** The text `formatNumberForInput` shows passes the cleaner as the `toFixed` text. */
  lemma {:induction false} CleanFormatted(v: real)
    requires v != 0.0
    ensures CleanInput(FormatNumberForInput(v)) == SignText(v) + FixedBody(v)
  {
    var whole := NatToString(Cents(v) / 100);
    var sign := SignText(v);
    var two := CentDigits(Cents(v));
    var x := sign + whole;
    FormatShape(v);
    assert FormatNumberForInput(v) == x + "," + two;
    assert forall i :: 0 <= i < |x| ==> IsDigit(x[i]) || x[i] == '-' by {
      forall i | 0 <= i < |x| ensures IsDigit(x[i]) || x[i] == '-' {
        if i >= |sign| {
          assert x[i] == whole[i - |sign|];
        }
      }
    }
    CleanDecimalComma(x, two);
    assert x + ("." + two) == sign + (whole + "." + two);
  }

  /** A sign and digits, a comma and digits go through the cleaner whole, the comma becoming a point. */
  lemma {:induction false} CleanDecimalComma(x: string, y: string)
    requires forall i :: 0 <= i < |x| ==> IsDigit(x[i]) || x[i] == '-'
    requires AllDigits(y)
    ensures CleanInput(x + "," + y) == x + ("." + y)
  {
    var shown := x + [','] + y;
    assert forall i :: 0 <= i < |shown| ==> KeptByCleaner(shown[i]) by {
      forall i | 0 <= i < |shown| ensures KeptByCleaner(shown[i]) {
        if i < |x| {
          assert shown[i] == x[i];
        } else if i > |x| {
          assert shown[i] == y[i - |x| - 1];
        }
      }
    }
    FilterAll(shown, KeptByCleaner);
    assert ',' !in x by {
      assert forall i :: 0 <= i < |x| ==> x[i] != ',';
    }
    ReplaceFirstAt(x, y, ',', '.');
  }

  /** The unsigned text `toFixed(2)` writes: integer digits, '.', two digits. */
  function FixedBody(v: real): (r: string)
    ensures r != [] && IsDigit(r[0])
  {
    var whole := NatToString(Cents(v) / 100);
    var r := whole + "." + CentDigits(Cents(v));
    assert r[0] == whole[0];
    r
  }

  /** Parsing the unsigned text gives the cents divided by 100. */
  lemma {:induction false} ParseFixedBody(v: real)
    ensures ParseUnsigned(FixedBody(v)) == Some(Cents(v) as real / 100.0)
  {
    var whole := NatToString(Cents(v) / 100);
    var two := CentDigits(Cents(v));
    ParseUnsignedPoint(whole, two);
    var a := DigitsValue(whole);
    var b := DigitsValue(two);
    HundredthOf(two);
    CentsValue(Cents(v), two);
    ScaledDecimal(a as real + b as real / 100.0, a, b, Cents(v));
  }

  /** The value parsed back from the cleaned text is the magnitude rounded to cents, signed. */
  lemma {:induction false} ParseFormatted(v: real)
    requires v != 0.0
    ensures ParseFloat(CleanInput(FormatNumberForInput(v))) ==
              Some(if v < 0.0 then -(Cents(v) as real / 100.0) else Cents(v) as real / 100.0)
  {
    CleanFormatted(v);
    ParseSigned(SignText(v), FixedBody(v));
    ParseFixedBody(v);
  }

  /** For a nonzero value in whole cents, parsing what `formatNumberForInput` shows gives the value back. */
  lemma {:induction false} FormatParseRoundTrip(v: real)
    requires v != 0.0 && CentsExact(v)
    ensures ParseInputToNumber(FormatNumberForInput(v)) == v
  {
    ParseFormatted(v);
    WholeCents(v);
    Unscale(Magnitude(v), Cents(v));
  }

  /** In whole cents, rounding the scaled magnitude changes nothing. */
  lemma {:induction false} WholeCents(v: real)
    requires CentsExact(v)
    ensures Cents(v) as real == Magnitude(v) * 100.0
  {
    var k := (v * 100.0).Floor;
    var n := if v < 0.0 then -k else k;
    assert Magnitude(v) * 100.0 == n as real;
    RoundOfInteger(Magnitude(v) * 100.0, n);
  }

  lemma {:induction false} RoundOfInteger(x: real, n: int)
    requires x == n as real
    ensures RoundHalfUp(x) == n
  {
  }

  lemma {:induction false} Unscale(x: real, c: int)
    requires c as real == x * 100.0
    ensures x == c as real / 100.0
  {
  }

  lemma {:induction false} ScaledDecimal(m: real, a: nat, b: nat, c: nat)
    requires m == a as real + b as real / 100.0 && a * 100 + b == c
    ensures m == c as real / 100.0
  {
  }

  /** The two digits after the integer part are the cents' remainder. */
  lemma {:induction false} CentsValue(cents: nat, two: string)
    requires two == CentDigits(cents)
    ensures DigitsValue(two) == cents % 100
    ensures (cents / 100) * 100 + DigitsValue(two) == cents
  {
    var high := [two[0]];
    assert two[..1] == high && high[..0] == [];
    assert DigitsValue(high) == DigitsValue([]) * 10 + DigitValue(two[0]);
    assert DigitsValue(two) == DigitsValue(high) * 10 + DigitValue(two[1]);
  }

  /** Zero shows as the empty input, which parses back to 0. */
  lemma {:induction false} ZeroRoundTrip()
    ensures FormatNumberForInput(0.0) == ""
    ensures ParseInputToNumber("") == 0.0
  {
    assert Filter("", KeptByCleaner) == "";
  }

  /** Text without a digit parses to 0. */
  lemma {:induction false} NoDigitsParseToZero(value: string)
    requires forall i :: 0 <= i < |value| ==> !IsDigit(value[i])
    ensures ParseInputToNumber(value) == 0.0
  {
    FilterMembers(value, KeptByCleaner);
    var cleaned := CleanInput(value);
    assert forall i :: 0 <= i < |cleaned| ==> !IsDigit(cleaned[i]) by {
      var kept := Filter(value, KeptByCleaner);
      forall i | 0 <= i < |cleaned| ensures !IsDigit(cleaned[i]) {
        assert kept[i] in value;
      }
    }
    var body := if cleaned != [] && (cleaned[0] == '-' || cleaned[0] == '+') then cleaned[1..] else cleaned;
    assert LeadingDigits(body) == [];
    var after := body;
    if after != [] && after[0] == '.' {
      assert LeadingDigits(after[1..]) == [];
    }
  }

  /** `formatMonth`: the month's name for 1..12, and '' for any other number. */
  function FormatMonth(month: int): (r: string)
    ensures 1 <= month <= 12 ==> r == Months[month] && r != ""
    ensures !(1 <= month <= 12) ==> r == ""
  {
    if 0 <= month < |Months| then Months[month] else ""
  }

  /** The decimal text of an integer, as a template literal shows it. */
  function IntToString(n: int): string {
    if n < 0 then "-" + NatToString(-n) else NatToString(n)
  }

  /** `MONTHS[month]` in a template literal: the entry for 0..12, and "undefined" past the array. */
  function MonthLabel(month: int): (r: string)
    ensures 1 <= month <= 12 ==> r == Months[month]
    ensures month == 0 ==> r == ""
    ensures !(0 <= month <= 12) ==> r == "undefined"
  {
    if 0 <= month < |Months| then Months[month] else "undefined"
  }

  /** `formatMonthYear`: the name, one space and the year; a month outside 0..12 shows as "undefined". */
  function FormatMonthYear(month: int, year: int): (r: string)
    ensures 1 <= month <= 12 ==> r == Months[month] + " " + IntToString(year)
    ensures month == 0 ==> r == " " + IntToString(year)
    ensures !(0 <= month <= 12) ==> r == "undefined " + IntToString(year)
  {
    MonthLabel(month) + " " + IntToString(year)
  }
}
