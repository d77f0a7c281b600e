/** The closed set of expense categories and the per-category totals built over it. */
module Categories {
  import opened Collections

  /** The category identifiers of finny/src/types/index.ts (`'lazer'` is leisure). */
  datatype Category =
    | Lazer | Alimentacao | Transporte | Compras | Saude | Educacao | Moradia | Veiculo | Outros

  /** Every category once, in the order of the CATEGORIES table. */
  const AllCategories: seq<Category> :=
    [Lazer, Alimentacao, Transporte, Compras, Saude, Educacao, Moradia, Veiculo, Outros]

  /** The filter predicate "belongs to category `c`" for records whose category is `cat(x)`. */
  function InCategory<T>(cat: T -> Category, c: Category): T -> bool {
    x => cat(x) == c
  }

  /**
   * The `byCategory` record built by visiting `s` in order and adding each
   * amount to the running total of its category (missing totals start at 0).
   */
  function Totals<T>(s: seq<T>, cat: T -> Category, amount: T -> real): map<Category, real>
    decreases |s|
  {
    if s == [] then map[]
    else
      var m := Totals(s[..|s| - 1], cat, amount);
      var x := s[|s| - 1];
      m[cat(x) := (if cat(x) in m then m[cat(x)] else 0.0) + amount(x)]
  }

  /** Visiting one more record adds its amount to its category's total. */
  lemma {:induction false} TotalsSnoc<T>(s: seq<T>, x: T, cat: T -> Category, amount: T -> real)
    ensures Totals(s + [x], cat, amount) == Totals(s, cat, amount)[cat(x) := TotalOf(Totals(s, cat, amount), cat(x)) + amount(x)]
  {
    assert (s + [x])[..|s + [x]| - 1] == s;
  }

  /** The total recorded for `c`, reading a missing key as 0. */
  function TotalOf(m: map<Category, real>, c: Category): real {
    if c in m then m[c] else 0.0
  }

  /** The sum of the values of a per-category record. */
  function SumOver(cs: seq<Category>, m: map<Category, real>): real
    decreases |cs|
  {
    if cs == [] then 0.0 else TotalOf(m, cs[0]) + SumOver(cs[1..], m)
  }

  function ValueSum(m: map<Category, real>): real {
    SumOver(AllCategories, m)
  }

  /** A category is a key of the per-category record exactly when some record of `s` has it. */
  lemma {:induction false} TotalsKeys<T>(s: seq<T>, cat: T -> Category, amount: T -> real, c: Category)
    ensures c in Totals(s, cat, amount) <==> exists i :: 0 <= i < |s| && cat(s[i]) == c
    decreases |s|
  {
    if s != [] {
      var init := s[..|s| - 1];
      TotalsKeys(init, cat, amount, c);
      if exists i :: 0 <= i < |init| && cat(init[i]) == c {
        var i :| 0 <= i < |init| && cat(init[i]) == c;
        assert s[i] == init[i];
      }
      if exists i :: 0 <= i < |s| && cat(s[i]) == c {
        var i :| 0 <= i < |s| && cat(s[i]) == c;
        if i < |init| {
          assert init[i] == s[i];
        }
      }
    }
  }

  /** A category is a key of the per-category record of the records satisfying `p` exactly when one of them has it. */
  lemma {:induction false} TotalsKeysFiltered<T>(s: seq<T>, p: T -> bool, cat: T -> Category, amount: T -> real, c: Category)
    ensures c in Totals(Filter(s, p), cat, amount) <==> exists i :: 0 <= i < |s| && p(s[i]) && cat(s[i]) == c
  {
    var r := Filter(s, p);
    FilterMembers(s, p);
    TotalsKeys(r, cat, amount, c);
    if exists i :: 0 <= i < |s| && p(s[i]) && cat(s[i]) == c {
      var i :| 0 <= i < |s| && p(s[i]) && cat(s[i]) == c;
      assert s[i] in r;
      var j :| 0 <= j < |r| && r[j] == s[i];
    }
    if exists j :: 0 <= j < |r| && cat(r[j]) == c {
      var j :| 0 <= j < |r| && cat(r[j]) == c;
      assert r[j] in s;
      var i :| 0 <= i < |s| && s[i] == r[j];
    }
  }

  /** The value recorded for `c` is the total of the records of category `c`. */
  lemma {:induction false} TotalsValue<T>(s: seq<T>, cat: T -> Category, amount: T -> real, c: Category)
    ensures TotalOf(Totals(s, cat, amount), c) == Sum(Filter(s, InCategory(cat, c)), amount)
    decreases |s|
  {
    if s != [] {
      var init := s[..|s| - 1];
      var x := s[|s| - 1];
      var p := InCategory(cat, c);
      assert s == init + [x];
      TotalsValue(init, cat, amount, c);
      FilterAppend(init, [x], p);
      var tail := Filter([x], p);
      assert tail == (if p(x) then [x] else []) + Filter([], p);
      SumAppend(Filter(init, p), tail, amount);
      if p(x) {
        assert Sum(tail, amount) == amount(x) + Sum([], amount);
      }
    }
  }

  /** Changing the value of one key that occurs once in `cs` changes the sum by the difference. */
  lemma {:induction false} SumOverUpdate(cs: seq<Category>, m: map<Category, real>, c: Category, v: real)
    requires forall i, j :: 0 <= i < j < |cs| ==> cs[i] != cs[j]
    ensures SumOver(cs, m[c := v]) == SumOver(cs, m) + (if c in cs then v - TotalOf(m, c) else 0.0)
    decreases |cs|
  {
    if cs != [] {
      SumOverUpdate(cs[1..], m, c, v);
      if cs[0] == c {
        assert c !in cs[1..];
      }
      if c in cs && cs[0] != c {
        assert c in cs[1..];
      }
      if c in cs[1..] {
        assert c in cs;
      }
    }
  }

  lemma {:induction false} SumOverEmpty(cs: seq<Category>)
    ensures SumOver(cs, map[]) == 0.0
    decreases |cs|
  {
    if cs != [] {
      SumOverEmpty(cs[1..]);
    }
  }

  /** Every category occurs in `AllCategories`. */
  lemma {:induction false} AllCategoriesComplete(c: Category)
    ensures c in AllCategories
  {
    match c
    case Lazer => assert AllCategories[0] == c;
    case Alimentacao => assert AllCategories[1] == c;
    case Transporte => assert AllCategories[2] == c;
    case Compras => assert AllCategories[3] == c;
    case Saude => assert AllCategories[4] == c;
    case Educacao => assert AllCategories[5] == c;
    case Moradia => assert AllCategories[6] == c;
    case Veiculo => assert AllCategories[7] == c;
    case Outros => assert AllCategories[8] == c;
  }

  /** No category occurs twice in `AllCategories`. */
  lemma {:induction false} AllCategoriesDistinct()
    ensures forall i, j :: 0 <= i < j < |AllCategories| ==> AllCategories[i] != AllCategories[j]
  {
  }

  /** Over a list naming every category once, the values of the per-category record add up to the total of all records. */
  lemma {:induction false} TotalsSumOver<T>(s: seq<T>, cat: T -> Category, amount: T -> real, cs: seq<Category>)
    requires forall i, j :: 0 <= i < j < |cs| ==> cs[i] != cs[j]
    requires forall c: Category :: c in cs
    ensures SumOver(cs, Totals(s, cat, amount)) == Sum(s, amount)
    decreases |s|
  {
    if s == [] {
      SumOverEmpty(cs);
    } else {
      var init := s[..|s| - 1];
      var x := s[|s| - 1];
      assert s == init + [x];
      TotalsSumOver(init, cat, amount, cs);
      var m := Totals(init, cat, amount);
      var c := cat(x);
      assert Totals(s, cat, amount) == m[c := TotalOf(m, c) + amount(x)];
      SumOverUpdate(cs, m, c, TotalOf(m, c) + amount(x));
      SumAppend(init, [x], amount);
      assert Sum([x], amount) == amount(x) + Sum([], amount);
    }
  }

  /** The values of the per-category record add up to the total of all records. */
  lemma {:induction false} TotalsSumToTotal<T>(s: seq<T>, cat: T -> Category, amount: T -> real)
    ensures ValueSum(Totals(s, cat, amount)) == Sum(s, amount)
  {
    forall c: Category ensures c in AllCategories {
      AllCategoriesComplete(c);
    }
    AllCategoriesDistinct();
    TotalsSumOver(s, cat, amount, AllCategories);
  }
}
