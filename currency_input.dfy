/**
 * The money field's sanitiser, `CurrencyInput`'s `handleChange` in
 * src/components/ui/Input.tsx: keep digits and commas, keep one comma,
 * cut the fraction to two digits.
 */
module CurrencyInput {
  import opened Collections
  import opened Text

  /** The characters `/[^\d,]/g` does not remove. */
  function KeptByCurrency(c: char): bool {
    IsDigit(c) || c == ','
  }

  /** The typed text with everything but digits and commas removed. */
  function Stripped(input: string): string {
    Filter(input, KeptByCurrency)
  }

  /**
   * The sanitised text as the handler computes it. The truncation test reads
   * the pieces split before the merge, so a merged fraction is never cut.
   */
  function SanitizeAsWritten(input: string): string {
    var stripped := Stripped(input);
    var parts := Split(stripped, ',');
    var merged := if |parts| > 2 then parts[0] + "," + Concat(parts[1..]) else stripped;
    if |parts| == 2 && |parts[1]| > 2 then parts[0] + "," + parts[1][..2] else merged
  }

  /** `handleChange`: the value handed to `onValueChange`, in the handler's three steps. */
  method HandleChange(target: string) returns (value: string)
    ensures value == SanitizeAsWritten(target)
  {
    var inputValue := target;
    inputValue := Filter(inputValue, KeptByCurrency);
    var parts := Split(inputValue, ',');
    if |parts| > 2 {
      inputValue := parts[0] + "," + Concat(parts[1..]);
    }
    if |parts| == 2 && |parts[1]| > 2 {
      inputValue := parts[0] + "," + parts[1][..2];
    }
    value := inputValue;
  }

  /** The digits of the typed text, in order. */
  function DigitsOf(input: string): string {
    Filter(input, IsDigit)
  }

  /** The pieces of the stripped text hold exactly the typed digits, and there is one more piece than commas. */
  lemma {:induction false} StrippedPieces(input: string)
    ensures var parts := Split(Stripped(input), ',');
      Concat(parts) == DigitsOf(input) && AllDigits(DigitsOf(input)) &&
      |parts| == Count(Stripped(input), ',') + 1 && Join(parts, ',') == Stripped(input)
  {
    var stripped := Stripped(input);
    var parts := Split(stripped, ',');
    SplitJoin(stripped, ',');
    JoinWithoutSeparator(parts, ',');
    forall c: char ensures IsDigit(c) == (KeptByCurrency(c) && NotChar(',')(c)) {
    }
    FilterFilter(input, KeptByCurrency, NotChar(','), IsDigit);
    FilterMembers(input, IsDigit);
  }

  /** A number with one comma: its characters, its comma count, its pieces and its digits. */
  lemma {:induction false} CommaNumber(a: string, b: string)
    requires AllDigits(a) && AllDigits(b)
    ensures forall i :: 0 <= i < |a + "," + b| ==> KeptByCurrency((a + "," + b)[i])
    ensures Count(a + "," + b, ',') == 1
    ensures Split(a + "," + b, ',') == [a, b]
    ensures Filter(a + "," + b, NotChar(',')) == a + b
  {
    DigitsOnly(a);
    DigitsOnly(b);
    CommaNumberAlphabet(a, b);
    CommaNumberCount(a, b);
    SplitAround(a, b, ',');
    CommaNumberDigits(a, b);
  }

  lemma {:induction false} CommaNumberAlphabet(a: string, b: string)
    requires forall i :: 0 <= i < |a| ==> KeptByCurrency(a[i])
    requires forall i :: 0 <= i < |b| ==> KeptByCurrency(b[i])
    ensures forall i :: 0 <= i < |a + "," + b| ==> KeptByCurrency((a + "," + b)[i])
  {
    var s := a + "," + b;
    forall i | 0 <= i < |s| ensures KeptByCurrency(s[i]) {
      if i < |a| {
        assert s[i] == a[i];
      } else if i > |a| {
        assert s[i] == b[i - |a| - 1];
      }
    }
  }

  lemma {:induction false} CommaNumberCount(a: string, b: string)
    requires Count(a, ',') == 0 && Count(b, ',') == 0
    ensures Count(a + "," + b, ',') == 1
  {
    CountAppend(a + ",", b, ',');
    CountAppend(a, ",", ',');
  }

  lemma {:induction false} CommaNumberDigits(a: string, b: string)
    requires Filter(a, NotChar(',')) == a && Filter(b, NotChar(',')) == b
    ensures Filter(a + "," + b, NotChar(',')) == a + b
  {
    FilterAppend(a + ",", b, NotChar(','));
    FilterAppend(a, ",", NotChar(','));
    assert Filter(",", NotChar(',')) == [] + Filter([], NotChar(','));
  }

  /** Every character of a digit string is a digit, and none is a comma. */
  lemma {:induction false} DigitsOnly(a: string)
    requires AllDigits(a)
    ensures forall i :: 0 <= i < |a| ==> KeptByCurrency(a[i])
    ensures Count(a, ',') == 0 && Split(a, ',') == [a] && Filter(a, NotChar(',')) == a
  {
    assert ',' !in a by {
      assert forall i :: 0 <= i < |a| ==> IsDigit(a[i]);
    }
    CountAbsent(a, ',');
    SplitAbsent(a, ',');
    NoSeparatorKept(a, ',');
  }

  /** The digits of a concatenation's parts. */
  lemma {:induction false} DigitsSplit(a: string, b: string)
    requires AllDigits(a + b)
    ensures AllDigits(a) && AllDigits(b)
  {
    assert forall i :: 0 <= i < |a| ==> a[i] == (a + b)[i];
    assert forall i :: 0 <= i < |b| ==> b[i] == (a + b)[|a| + i];
  }

  /**
   * The as-written result is the integer digits alone (no comma was typed),
   * or the integer digits, one comma and a digit fraction: the first piece
   * after the comma cut to two digits when there was exactly one comma,
   * and every later digit when there were more.
   */
  lemma {:induction false} AsWrittenShape(input: string)
    ensures var parts := Split(Stripped(input), ',');
      var r := SanitizeAsWritten(input);
      AllDigits(parts[0]) &&
      (|parts| == 1 ==> r == parts[0]) &&
      (|parts| == 2 ==> AllDigits(parts[1]) &&
                         r == parts[0] + "," + (if |parts[1]| > 2 then parts[1][..2] else parts[1])) &&
      (|parts| > 2 ==> AllDigits(Concat(parts[1..])) && r == parts[0] + "," + Concat(parts[1..]))
  {
    var stripped := Stripped(input);
    var parts := Split(stripped, ',');
    StrippedPieces(input);
    assert Concat(parts) == parts[0] + Concat(parts[1..]);
    DigitsSplit(parts[0], Concat(parts[1..]));
    if |parts| == 1 {
      assert Join(parts, ',') == parts[0];
    } else if |parts| == 2 {
      assert parts[1..] == [parts[1]];
      assert Concat(parts[1..]) == parts[1] + Concat([]);
      assert Concat(parts[1..]) == parts[1];
      assert Join(parts, ',') == parts[0] + [','] + Join(parts[1..], ',');
    }
  }

  /** A fraction cut to two digits keeps only digits. */
  lemma {:induction false} CutDigits(b: string)
    requires AllDigits(b) && |b| > 2
    ensures AllDigits(b[..2])
  {
  }

  /** The sanitised text contains only digits and commas, and at most one comma. */
  lemma {:induction false} AsWrittenAlphabet(input: string)
    ensures var r := SanitizeAsWritten(input);
      (forall i :: 0 <= i < |r| ==> KeptByCurrency(r[i])) && Count(r, ',') <= 1
  {
    var parts := Split(Stripped(input), ',');
    AsWrittenShape(input);
    if |parts| == 1 {
      DigitsOnly(parts[0]);
    } else if |parts| == 2 {
      if |parts[1]| > 2 {
        CutDigits(parts[1]);
        CommaNumber(parts[0], parts[1][..2]);
      } else {
        CommaNumber(parts[0], parts[1]);
      }
    } else {
      CommaNumber(parts[0], Concat(parts[1..]));
    }
  }

  /** When the stripped text had exactly one comma, at most two digits follow it. */
  lemma {:induction false} OneCommaCutsFraction(input: string)
    requires Count(Stripped(input), ',') == 1
    ensures var pieces := Split(SanitizeAsWritten(input), ',');
      |pieces| == 2 && |pieces[1]| <= 2
  {
    var parts := Split(Stripped(input), ',');
    StrippedPieces(input);
    AsWrittenShape(input);
    if |parts[1]| > 2 {
      CutDigits(parts[1]);
      CommaNumber(parts[0], parts[1][..2]);
    } else {
      CommaNumber(parts[0], parts[1]);
    }
  }

  /**
   * The digits come out in their typed order: the sanitised digits are a
   * prefix of the typed digits, and all of them unless a one-comma fraction
   * was cut. With several commas no digit is dropped.
   */
  lemma {:induction false} AsWrittenKeepsDigitOrder(input: string)
    ensures var d := Filter(SanitizeAsWritten(input), NotChar(','));
      |d| <= |DigitsOf(input)| && d == DigitsOf(input)[..|d|]
    ensures var parts := Split(Stripped(input), ',');
      !(|parts| == 2 && |parts[1]| > 2) ==> Filter(SanitizeAsWritten(input), NotChar(',')) == DigitsOf(input)
    ensures Count(Stripped(input), ',') >= 2 ==> Filter(SanitizeAsWritten(input), NotChar(',')) == DigitsOf(input)
  {
    var parts := Split(Stripped(input), ',');
    StrippedPieces(input);
    AsWrittenShape(input);
    assert Concat(parts) == parts[0] + Concat(parts[1..]);
    if |parts| == 1 {
      DigitsOnly(parts[0]);
      assert Concat(parts[1..]) == [];
    } else if |parts| == 2 {
      assert parts[1..] == [parts[1]];
      assert Concat(parts[1..]) == parts[1] + Concat([]);
      if |parts[1]| > 2 {
        CutDigits(parts[1]);
        CommaNumber(parts[0], parts[1][..2]);
        assert (parts[0] + parts[1])[..|parts[0]| + 2] == parts[0] + parts[1][..2];
      } else {
        CommaNumber(parts[0], parts[1]);
      }
    } else {
      CommaNumber(parts[0], Concat(parts[1..]));
    }
  }

  /**
   * With two commas typed between digit runs `a`, `b` and `c`, the pieces
   * after the first are merged and never cut: the fraction is all of `b + c`.
   */
  lemma {:induction false} AsWrittenMergesFraction(a: string, b: string, c: string)
    requires AllDigits(a) && AllDigits(b) && AllDigits(c)
    ensures SanitizeAsWritten(a + "," + b + "," + c) == a + "," + (b + c)
    ensures Split(SanitizeAsWritten(a + "," + b + "," + c), ',') == [a, b + c]
  {
    var s := a + "," + b + "," + c;
    TwoCommasStripped(a, b, c);
    TwoCommasSplit(a, b, c);
    var parts := Split(s, ',');
    assert parts[0] == a && parts[1..] == [b, c];
    ConcatPair(b, c);
    assert SanitizeAsWritten(s) == a + "," + (b + c);
    DigitsAppend(b, c);
    NoCommaInDigits(a);
    NoCommaInDigits(b + c);
    SplitAround(a, b + c, ',');
  }

  /** Digits and two commas pass the handler's filter unchanged. */
  lemma {:induction false} TwoCommasStripped(a: string, b: string, c: string)
    requires AllDigits(a) && AllDigits(b) && AllDigits(c)
    ensures Stripped(a + "," + b + "," + c) == a + "," + b + "," + c
  {
    DigitsOnly(a);
    DigitsOnly(b);
    DigitsOnly(c);
    CommaNumberAlphabet(a, b);
    CommaNumberAlphabet(a + "," + b, c);
    FilterAll(a + "," + b + "," + c, KeptByCurrency);
  }

  /** Digit runs around two commas split into the three runs. */
  lemma {:induction false} TwoCommasSplit(a: string, b: string, c: string)
    requires AllDigits(a) && AllDigits(b) && AllDigits(c)
    ensures Split(a + "," + b + "," + c, ',') == [a, b, c]
  {
    NoCommaInDigits(a);
    NoCommaInDigits(b);
    NoCommaInDigits(c);
    assert a + "," + b + "," + c == a + [','] + (b + [','] + c);
    SplitPrefix(a, b + [','] + c, ',');
    SplitAround(b, c, ',');
  }

  /** Merging two pieces is concatenating them. */
  lemma {:induction false} ConcatPair(b: string, c: string)
    ensures Concat([b, c]) == b + c
  {
    assert [b, c][1..] == [c];
    assert [c][1..] == [];
    assert Concat([c]) == c + Concat<char>([]);
    assert c + [] == c;
  }

  /** Two digit strings together are a digit string. */
  lemma {:induction false} DigitsAppend(b: string, c: string)
    requires AllDigits(b) && AllDigits(c)
    ensures AllDigits(b + c)
  {
    forall i | 0 <= i < |b + c| ensures IsDigit((b + c)[i]) {
      if i >= |b| {
        assert (b + c)[i] == c[i - |b|];
      }
    }
  }

  /** A digit string holds no comma. */
  lemma {:induction false} NoCommaInDigits(a: string)
    requires AllDigits(a)
    ensures ',' !in a
  {
    assert forall i :: 0 <= i < |a| ==> IsDigit(a[i]);
  }

  /**
   * The text that shows the merged fraction escaping the cut: "1,2,345" has
   * two commas, so the fraction "2345" is kept whole, four digits long.
   */
  lemma {:induction false} MergedFractionNotCut()
    ensures SanitizeAsWritten("1,2,345") == "1,2345"
    ensures |Split(SanitizeAsWritten("1,2,345"), ',')[1]| == 4
  {
    var a: string := "1";
    var b: string := "2";
    var c: string := "345";
    assert AllDigits(a) && AllDigits(b) && AllDigits(c);
    AsWrittenMergesFraction(a, b, c);
    assert a + "," + b + "," + c == "1,2,345";
    assert a + "," + (b + c) == "1,2345";
  }

  /** The sanitiser with the cut applied to the merged fraction, so no result has more than two decimals. */
  function Sanitize(input: string): string {
    var stripped := Stripped(input);
    var parts := Split(stripped, ',');
    if |parts| == 1 then stripped
    else
      var fraction := Concat(parts[1..]);
      parts[0] + "," + (if |fraction| > 2 then fraction[..2] else fraction)
  }

  /** The corrected sanitiser keeps digits and at most one comma, with at most two digits after it. */
  lemma {:induction false} SanitizeCutsFraction(input: string)
    ensures var r := Sanitize(input);
      (forall i :: 0 <= i < |r| ==> KeptByCurrency(r[i])) && Count(r, ',') <= 1
    ensures var pieces := Split(Sanitize(input), ',');
      |pieces| <= 2 && (|pieces| == 2 ==> |pieces[1]| <= 2)
  {
    var parts := Split(Stripped(input), ',');
    StrippedPieces(input);
    AsWrittenShape(input);
    assert Concat(parts) == parts[0] + Concat(parts[1..]);
    DigitsSplit(parts[0], Concat(parts[1..]));
    var fraction := Concat(parts[1..]);
    if |parts| == 1 {
      assert Join(parts, ',') == parts[0];
      DigitsOnly(parts[0]);
    } else if |fraction| > 2 {
      CutDigits(fraction);
      CommaNumber(parts[0], fraction[..2]);
    } else {
      CommaNumber(parts[0], fraction);
    }
  }

  /** With at most one comma typed the corrected sanitiser agrees with the handler as written. */
  lemma {:induction false} SanitizeAgreesUpToOneComma(input: string)
    requires Count(Stripped(input), ',') <= 1
    ensures Sanitize(input) == SanitizeAsWritten(input)
  {
    var parts := Split(Stripped(input), ',');
    StrippedPieces(input);
    AsWrittenShape(input);
    if |parts| == 2 {
      assert parts[1..] == [parts[1]];
      assert Concat(parts[1..]) == parts[1] + Concat([]);
    } else {
      assert Join(parts, ',') == parts[0];
    }
  }
}
