/**
 * The per-category card of the dashboard
 * (finny/src/components/dashboard/CategoryBreakdown.tsx): the five largest
 * positive category totals, largest first, and each one's share of the
 * total of all categories. The record of totals is given as its entries in
 * key order.
 */
module CategoryBreakdown {
  import opened Collections
  import opened Categories

  type Entry = (Category, real)

  function EntryAmount(e: Entry): real {
    e.1
  }

  predicate IsPositive(e: Entry) {
    e.1 > 0.0
  }

  predicate NotPositive(e: Entry) {
    !(e.1 > 0.0)
  }

  /** The comparator `(a, b) => b - a` on the amounts: larger first. */
  predicate LargerFirst(a: Entry, b: Entry) {
    a.1 >= b.1
  }

  const MaxShown := 5

  lemma {:induction false} LargerFirstIsTotalPreorder()
    ensures TotalPreorder(LargerFirst)
  {
  }

  /** The positive entries, largest first. */
  function PositiveByAmount(entries: seq<Entry>): (r: seq<Entry>)
    ensures multiset(r) == multiset(Filter(entries, IsPositive))
    ensures SortedBy(r, LargerFirst)
  {
    LargerFirstIsTotalPreorder();
    SortBy(Filter(entries, IsPositive), LargerFirst)
  }

  /** An entry of the sorted positives is a positive entry, and every positive entry is among them. */
  lemma {:induction false} PositiveByAmountMembers(entries: seq<Entry>)
    ensures forall x :: x in PositiveByAmount(entries) <==> x in entries && x.1 > 0.0
  {
    var sorted := PositiveByAmount(entries);
    forall x ensures x in sorted <==> x in entries && x.1 > 0.0 {
      assert x in sorted <==> x in multiset(sorted);
      assert x in Filter(entries, IsPositive) <==> x in multiset(Filter(entries, IsPositive));
      FilterHas(entries, IsPositive, x);
    }
  }

  /** How many entries the card shows: five, or every positive entry when there are fewer. */
  function ShownCount(entries: seq<Entry>): nat {
    var k := |Filter(entries, IsPositive)|;
    if k < MaxShown then k else MaxShown
  }

  /** The shown prefix holds positive entries of the record, in non-increasing order. */
  lemma {:induction false} TopAreLargestPositive(entries: seq<Entry>, n: nat)
    requires n <= |PositiveByAmount(entries)|
    ensures var r := PositiveByAmount(entries)[..n];
      (forall i :: 0 <= i < |r| ==> r[i] in entries && r[i].1 > 0.0) &&
      (forall i, j :: 0 <= i < j < |r| ==> r[i].1 >= r[j].1)
  {
    var sorted := PositiveByAmount(entries);
    PositiveByAmountMembers(entries);
    assert forall i :: 0 <= i < n ==> sorted[i] in sorted;
  }

  /** No positive entry left out of the prefix is larger than one in it. */
  lemma {:induction false} LeftOutAreSmaller(entries: seq<Entry>, n: nat)
    requires n <= |PositiveByAmount(entries)|
    ensures var r := PositiveByAmount(entries)[..n];
      forall i, e :: 0 <= i < |r| && e in entries && e.1 > 0.0 && e !in r ==> r[i].1 >= e.1
  {
    var sorted := PositiveByAmount(entries);
    var r := sorted[..n];
    PositiveByAmountMembers(entries);
    assert forall k :: 0 <= k < n ==> sorted[k] in r by {
      forall k | 0 <= k < n ensures sorted[k] in r {
        assert r[k] == sorted[k];
      }
    }
    forall i, e | 0 <= i < |r| && e in entries && e.1 > 0.0 && e !in r ensures r[i].1 >= e.1 {
      var j :| 0 <= j < |sorted| && sorted[j] == e;
      assert r[i] == sorted[i];
    }
  }

  /**
   * `sortedCategories`: at most five entries, all positive and taken from
   * the record, largest first; fewer than five only when there are fewer
   * positive entries; and no positive entry left out is larger than one shown.
   */
  function SortedCategories(entries: seq<Entry>): (r: seq<Entry>)
    ensures |r| <= MaxShown && |r| == ShownCount(entries)
    ensures forall i :: 0 <= i < |r| ==> r[i] in entries && r[i].1 > 0.0
    ensures forall i, j :: 0 <= i < j < |r| ==> r[i].1 >= r[j].1
    ensures forall i, e :: 0 <= i < |r| && e in entries && e.1 > 0.0 && e !in r ==> r[i].1 >= e.1
  {
    var sorted := PositiveByAmount(entries);
    assert |sorted| == |multiset(sorted)| == |Filter(entries, IsPositive)|;
    var n := if |sorted| < MaxShown then |sorted| else MaxShown;
    TopAreLargestPositive(entries, n);
    LeftOutAreSmaller(entries, n);
    sorted[..n]
  }

  /** `total`: the sum of every value of the record, positive or not. */
  function Total(entries: seq<Entry>): real {
    Sum(entries, EntryAmount)
  }

  /** The total is the positive totals plus the others, so zero or negative entries lower it without being shown. */
  lemma {:induction false} TotalCountsEveryEntry(entries: seq<Entry>)
    ensures Total(entries) == Sum(Filter(entries, IsPositive), EntryAmount) + Sum(Filter(entries, NotPositive), EntryAmount)
    ensures (forall e :: e in entries ==> e.1 >= 0.0) ==> Total(entries) >= 0.0
  {
    SumFilterSplit(entries, EntryAmount, IsPositive, NotPositive);
    if forall e :: e in entries ==> e.1 >= 0.0 {
      SumNonNegative(entries, EntryAmount);
    }
  }

  /** A row's `percentage`: its share of the total, or 0 when the total is not positive. */
  function Percentage(amount: real, total: real): (r: real)
    ensures total <= 0.0 ==> r == 0.0
    ensures total > 0.0 && 0.0 <= amount <= total ==> 0.0 <= r <= 100.0
    ensures total > 0.0 && amount > 0.0 ==> r > 0.0
  {
    if total > 0.0 then
      ShareAtMostWhole(amount, total);
      (amount / total) * 100.0
    else 0.0
  }

  /** A part of a positive whole is at most the whole. */
  lemma {:induction false} ShareAtMostWhole(amount: real, total: real)
    requires total > 0.0
    ensures 0.0 <= amount <= total ==> 0.0 <= amount / total <= 1.0
  {
    var q := amount / total;
    assert q * total == amount;
    assert (1.0 - q) * total == total - amount;
  }
}
