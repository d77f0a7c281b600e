/**
 * The expense list of src/components/expenses/ExpenseList.tsx: the expenses
 * of the chosen month and category, newest first, their total, and their
 * grouping under one heading per date.
 */
module ExpenseList {
  import opened Wrappers
  import opened Collections
  import opened Categories
  import opened Domain

  /** `month && year`: both given and neither zero. */
  predicate MonthFilterApplies(month: Option<int>, year: Option<int>) {
    month.Some? && month.value != 0 && year.Some? && year.value != 0
  }

  function InPeriod(month: int, year: int): Expense -> bool {
    (e: Expense) => e.month == month && e.year == year
  }

  function OfCategory(c: Category): Expense -> bool {
    (e: Expense) => e.category == c
  }

  /** The two filters of `filteredExpenses`, each applied only when its argument is set. */
  function Selected(expenses: seq<Expense>, month: Option<int>, year: Option<int>,
                    categoryFilter: Option<Category>): seq<Expense> {
    var byMonth := if MonthFilterApplies(month, year) then Filter(expenses, InPeriod(month.value, year.value))
                   else expenses;
    if categoryFilter.Some? then Filter(byMonth, OfCategory(categoryFilter.value)) else byMonth
  }

  /**
   * An expense is listed exactly when it is stored, belongs to the month when
   * the month filter applies, and to the category when one is chosen.
   */
  lemma {:induction false} SelectedExactly(expenses: seq<Expense>, month: Option<int>, year: Option<int>,
                        categoryFilter: Option<Category>, e: Expense)
    ensures e in Selected(expenses, month, year, categoryFilter) <==>
      e in expenses &&
      (MonthFilterApplies(month, year) ==> e.month == month.value && e.year == year.value) &&
      (categoryFilter.Some? ==> e.category == categoryFilter.value)
  {
    var byMonth := if MonthFilterApplies(month, year) then Filter(expenses, InPeriod(month.value, year.value))
                   else expenses;
    if MonthFilterApplies(month, year) {
      FilterHas(expenses, InPeriod(month.value, year.value), e);
    }
    if categoryFilter.Some? {
      FilterHas(byMonth, OfCategory(categoryFilter.value), e);
    }
  }

  /** `a` may be listed before `b`: a later date, or the same date and a creation time no earlier. */
  predicate InOrder(a: Expense, b: Expense) {
    Before(b.date, a.date) || (a.date == b.date && a.createdAt >= b.createdAt)
  }

  /** Newest first: every pair of the list is in order. */
  predicate Sorted(s: seq<Expense>) {
    SortedBy(s, InOrder)
  }

  /** The listing order is total and transitive, so it is a valid comparator. */
  lemma {:induction false} InOrderIsTotalPreorder()
    ensures TotalPreorder(InOrder)
  {
    forall a: Expense, b: Expense, c: Expense
      ensures (InOrder(a, b) || InOrder(b, a)) && (InOrder(a, b) && InOrder(b, c) ==> InOrder(a, c))
    {
      BeforeIsStrictTotalOrder(a.date, b.date, c.date);
      BeforeIsStrictTotalOrder(c.date, b.date, a.date);
    }
  }

  /** `filtered.sort(...)`: the same expenses, newest first. */
  function SortByDate(s: seq<Expense>): (r: seq<Expense>)
    ensures multiset(r) == multiset(s)
    ensures |r| == |s|
    ensures Sorted(r)
  {
    InOrderIsTotalPreorder();
    SortBy(s, InOrder)
  }

  /** `filteredExpenses`. */
  function FilteredExpenses(expenses: seq<Expense>, month: Option<int>, year: Option<int>,
                            categoryFilter: Option<Category>): seq<Expense> {
    SortByDate(Selected(expenses, month, year, categoryFilter))
  }

  function ExpenseAmount(e: Expense): real {
    e.amount
  }

  /** `total`: the sum of the listed amounts. */
  function Total(listed: seq<Expense>): real {
    Sum(listed, ExpenseAmount)
  }

  /**
   * The list holds each selected expense as often as it was stored, newest
   * first, and its total is the total of the selection whatever the order.
   */
  lemma {:induction false} FilteredIsSortedSelection(expenses: seq<Expense>, month: Option<int>, year: Option<int>,
                                  categoryFilter: Option<Category>)
    ensures var sel := Selected(expenses, month, year, categoryFilter);
      var r := FilteredExpenses(expenses, month, year, categoryFilter);
      multiset(r) == multiset(sel) && Sorted(r) && Total(r) == Sum(sel, ExpenseAmount)
  {
    var sel := Selected(expenses, month, year, categoryFilter);
    SumPermutation(SortByDate(sel), sel, ExpenseAmount);
  }

  /** One heading of `groupedByDate`: a date and its expenses. */
  datatype Group = Group(date: Date, items: seq<Expense>)

  /** The position of the group of date `d`, or -1 when there is none. */
  function GroupIndex(groups: seq<Group>, d: Date): (r: int)
    ensures -1 <= r < |groups|
    ensures r >= 0 ==> groups[r].date == d
    ensures r == -1 <==> forall i :: 0 <= i < |groups| ==> groups[i].date != d
    decreases |groups|
  {
    if groups == [] then -1
    else if groups[0].date == d then 0
    else
      var k := GroupIndex(groups[1..], d);
      if k == -1 then
        assert forall i :: 1 <= i < |groups| ==> groups[i] == groups[1..][i - 1];
        -1
      else k + 1
  }

  /** One step of the `forEach`: the expense joins its date's group, opened at the end if new. */
  function AddToGroup(groups: seq<Group>, e: Expense): seq<Group> {
    var k := GroupIndex(groups, e.date);
    if k >= 0 then groups[k := Group(e.date, groups[k].items + [e])]
    else groups + [Group(e.date, [e])]
  }

  /** The groups after visiting every expense of `s` in order. */
  function GroupsOf(s: seq<Expense>): seq<Group>
    decreases |s|
  {
    if s == [] then [] else AddToGroup(GroupsOf(s[..|s| - 1]), s[|s| - 1])
  }

  function OnDate(d: Date): Expense -> bool {
    (e: Expense) => e.date == d
  }

  /** No two groups share a date. */
  predicate DistinctDates(groups: seq<Group>) {
    forall i, j :: 0 <= i < j < |groups| ==> groups[i].date != groups[j].date
  }

  /** The expenses of the groups, group after group. */
  function Flatten(groups: seq<Group>): seq<Expense>
    decreases |groups|
  {
    if groups == [] then [] else Flatten(groups[..|groups| - 1]) + groups[|groups| - 1].items
  }

  /** Expenses of one date sit next to each other. */
  predicate DateContiguous(s: seq<Expense>) {
    forall i, j, k :: 0 <= i < j < k < |s| && s[i].date == s[k].date ==> s[j].date == s[i].date
  }

  /** Visiting one more expense adds it to its own date's selection only. */
  lemma {:induction false} FilterOnDateSnoc(t: seq<Expense>, x: Expense, d: Date)
    ensures Filter(t + [x], OnDate(d)) == Filter(t, OnDate(d)) + (if x.date == d then [x] else [])
  {
    FilterAppend(t, [x], OnDate(d));
    assert Filter([x], OnDate(d)) == (if x.date == d then [x] else []) + Filter([], OnDate(d));
  }

  /**
   * `groups` partitions `s` by date: no date twice, each group holds exactly
   * the expenses of its date in their order, and every date of `s` has a group.
   */
  predicate Partitions(groups: seq<Group>, s: seq<Expense>) {
    DistinctDates(groups) &&
    (forall g :: 0 <= g < |groups| ==> groups[g].items == Filter(s, OnDate(groups[g].date)) && groups[g].items != []) &&
    (forall i :: 0 <= i < |s| ==> GroupIndex(groups, s[i].date) >= 0)
  }

  /** An expense whose date already has a group joins that group, and the partition is kept. */
  lemma {:induction false} AddToExistingGroup(groups: seq<Group>, t: seq<Expense>, x: Expense)
    requires Partitions(groups, t)
    requires GroupIndex(groups, x.date) >= 0
    ensures Partitions(AddToGroup(groups, x), t + [x])
  {
    var k := GroupIndex(groups, x.date);
    var r := AddToGroup(groups, x);
    assert r == groups[k := Group(x.date, groups[k].items + [x])];
    assert forall g :: 0 <= g < |r| ==> r[g].date == groups[g].date;
    forall g | 0 <= g < |r| ensures r[g].items == Filter(t + [x], OnDate(r[g].date)) && r[g].items != [] {
      FilterOnDateSnoc(t, x, r[g].date);
      if g != k {
        assert groups[g].date != groups[k].date;
      }
    }
    forall i | 0 <= i < |t + [x]| ensures GroupIndex(r, (t + [x])[i].date) >= 0 {
      if i < |t| {
        var g := GroupIndex(groups, t[i].date);
        assert r[g].date == t[i].date;
      } else {
        assert r[k].date == x.date;
      }
    }
  }

  /** An expense of a new date opens a group of its own at the end, and the partition is kept. */
  lemma {:induction false} AddToNewGroup(groups: seq<Group>, t: seq<Expense>, x: Expense)
    requires Partitions(groups, t)
    requires GroupIndex(groups, x.date) == -1
    ensures Partitions(AddToGroup(groups, x), t + [x])
  {
    var r := AddToGroup(groups, x);
    assert r == groups + [Group(x.date, [x])];
    forall i | 0 <= i < |t| ensures !OnDate(x.date)(t[i]) {
      assert GroupIndex(groups, t[i].date) >= 0;
    }
    FilterNone(t, OnDate(x.date));
    forall g | 0 <= g < |r| ensures r[g].items == Filter(t + [x], OnDate(r[g].date)) && r[g].items != [] {
      FilterOnDateSnoc(t, x, r[g].date);
    }
    forall i | 0 <= i < |t + [x]| ensures GroupIndex(r, (t + [x])[i].date) >= 0 {
      if i < |t| {
        var g := GroupIndex(groups, t[i].date);
        assert r[g].date == t[i].date;
      } else {
        assert r[|groups|].date == x.date;
      }
    }
  }

  /** The groups of a list with one more expense come from adding it to the groups of the rest. */
  lemma {:induction false} GroupsOfSnoc(t: seq<Expense>, x: Expense)
    ensures GroupsOf(t + [x]) == AddToGroup(GroupsOf(t), x)
  {
    assert (t + [x])[..|t|] == t;
  }

  /** The groups of any list partition it by date. */
  lemma {:induction false} GroupsPartition(s: seq<Expense>)
    ensures Partitions(GroupsOf(s), s)
    decreases |s|
  {
    if s != [] {
      var t := s[..|s| - 1];
      var x := s[|s| - 1];
      assert s == t + [x];
      GroupsPartition(t);
      GroupsOfSnoc(t, x);
      if GroupIndex(GroupsOf(t), x.date) >= 0 {
        AddToExistingGroup(GroupsOf(t), t, x);
      } else {
        AddToNewGroup(GroupsOf(t), t, x);
      }
    }
  }

  /** Replacing the last group by itself plus `x` appends `x` to the flattened list. */
  lemma {:induction false} FlattenGrowLast(groups: seq<Group>, x: Expense)
    requires groups != []
    ensures var n := |groups| - 1;
      Flatten(groups[n := Group(groups[n].date, groups[n].items + [x])]) == Flatten(groups) + [x]
  {
    var n := |groups| - 1;
    var r := groups[n := Group(groups[n].date, groups[n].items + [x])];
    assert r[..n] == groups[..n];
  }

  /** What reading the groups in order gives for a contiguous list, and which group is last. */
  predicate ReadsBack(groups: seq<Group>, s: seq<Expense>) {
    Flatten(groups) == s && (s != [] ==> groups != [] && groups[|groups| - 1].date == s[|s| - 1].date)
  }

  /** In a contiguous list, an expense whose date differs from the one before it has a date no earlier expense has. */
  lemma {:induction false} NewDateIsFresh(t: seq<Expense>, x: Expense)
    requires DateContiguous(t + [x])
    requires t != [] && t[|t| - 1].date != x.date
    ensures forall i :: 0 <= i < |t| ==> t[i].date != x.date
  {
    var s := t + [x];
    var n := |t|;
    forall i | 0 <= i < n ensures t[i].date != x.date {
      if i < n - 1 {
        assert s[i] == t[i] && s[n - 1] == t[n - 1] && s[n] == x;
      }
    }
  }

  /** A date no expense has has no group. */
  lemma {:induction false} NoGroupWithoutWitness(groups: seq<Group>, t: seq<Expense>, d: Date)
    requires Partitions(groups, t)
    requires forall i :: 0 <= i < |t| ==> t[i].date != d
    ensures GroupIndex(groups, d) == -1
  {
    forall g | 0 <= g < |groups| ensures groups[g].date != d {
      FilterMembers(t, OnDate(groups[g].date));
      assert groups[g].items[0] in t;
    }
  }

  /** The contiguous case continuing the last group: the expense joins it at the end. */
  lemma {:induction false} ReadsBackSameDate(t: seq<Expense>, x: Expense)
    requires t != [] && t[|t| - 1].date == x.date
    requires Partitions(GroupsOf(t), t) && ReadsBack(GroupsOf(t), t)
    ensures ReadsBack(GroupsOf(t + [x]), t + [x])
  {
    var groups := GroupsOf(t);
    GroupsOfSnoc(t, x);
    var n := |groups| - 1;
    assert groups[n].date == x.date;
    assert GroupIndex(groups, x.date) == n;
    FlattenGrowLast(groups, x);
  }

  /** The contiguous case of a new date: the expense opens a group of its own at the end. */
  lemma {:induction false} ReadsBackNewDate(t: seq<Expense>, x: Expense)
    requires DateContiguous(t + [x])
    requires t != [] && t[|t| - 1].date != x.date
    requires Partitions(GroupsOf(t), t) && ReadsBack(GroupsOf(t), t)
    ensures ReadsBack(GroupsOf(t + [x]), t + [x])
  {
    var groups := GroupsOf(t);
    GroupsOfSnoc(t, x);
    NewDateIsFresh(t, x);
    NoGroupWithoutWitness(groups, t, x.date);
    assert GroupsOf(t + [x]) == groups + [Group(x.date, [x])];
    assert (groups + [Group(x.date, [x])])[..|groups|] == groups;
  }

  /** One step of the contiguous case: the next expense continues the last group or opens a new one. */
  lemma {:induction false} ReadsBackStep(t: seq<Expense>, x: Expense)
    requires DateContiguous(t + [x])
    requires Partitions(GroupsOf(t), t) && ReadsBack(GroupsOf(t), t)
    ensures ReadsBack(GroupsOf(t + [x]), t + [x])
  {
    if t == [] {
      GroupsOfSnoc(t, x);
      assert GroupsOf(t + [x]) == [Group(x.date, [x])];
      assert Flatten([Group(x.date, [x])]) == Flatten([]) + [x];
    } else if t[|t| - 1].date == x.date {
      ReadsBackSameDate(t, x);
    } else {
      ReadsBackNewDate(t, x);
    }
  }

  /**
   * When the expenses of each date are contiguous, reading the groups in the
   * order they were opened gives back the list.
   */
  lemma {:induction false} GroupsConcat(s: seq<Expense>)
    requires DateContiguous(s)
    ensures ReadsBack(GroupsOf(s), s)
    decreases |s|
  {
    if s != [] {
      var t := s[..|s| - 1];
      var x := s[|s| - 1];
      assert s == t + [x];
      assert DateContiguous(t) by {
        forall i, j, k | 0 <= i < j < k < |t| && t[i].date == t[k].date ensures t[j].date == t[i].date {
          assert t[i] == s[i] && t[j] == s[j] && t[k] == s[k];
        }
      }
      GroupsConcat(t);
      GroupsPartition(t);
      ReadsBackStep(t, x);
    }
  }

  /** A list sorted newest first has the expenses of each date next to each other. */
  lemma {:induction false} SortedIsContiguous(s: seq<Expense>)
    requires Sorted(s)
    ensures DateContiguous(s)
  {
    forall i, j, k | 0 <= i < j < k < |s| && s[i].date == s[k].date ensures s[j].date == s[i].date {
      assert InOrder(s[i], s[j]) && InOrder(s[j], s[k]);
      BeforeIsStrictTotalOrder(s[i].date, s[j].date, s[k].date);
    }
  }

  /**
   * `groupedByDate`: visits the listed expenses in order, opening the group
   * of a date on its first expense and appending each expense to its group.
   */
  method GroupByDate(listed: seq<Expense>) returns (groups: seq<Group>)
    ensures groups == GroupsOf(listed)
    ensures DistinctDates(groups)
    ensures forall g :: 0 <= g < |groups| ==>
      groups[g].items == Filter(listed, OnDate(groups[g].date)) && groups[g].items != []
    ensures forall i :: 0 <= i < |listed| ==> GroupIndex(groups, listed[i].date) >= 0
    ensures Sorted(listed) ==> Flatten(groups) == listed
  {
    groups := [];
    var n := 0;
    while n < |listed|
      invariant 0 <= n <= |listed|
      invariant groups == GroupsOf(listed[..n])
    {
      var e := listed[n];
      var idx := GroupIndex(groups, e.date);
      ghost var before := groups;
      if idx < 0 {
        groups := groups + [Group(e.date, [])];
        idx := |groups| - 1;
        groups := groups[idx := Group(e.date, groups[idx].items + [e])];
        assert groups == before + [Group(e.date, [e])] by {
          assert [] + [e] == [e];
          assert |groups| == |before| + 1 && groups[|before|] == Group(e.date, [e]);
          assert forall i :: 0 <= i < |before| ==> groups[i] == before[i];
        }
      } else {
        groups := groups[idx := Group(e.date, groups[idx].items + [e])];
      }
      assert groups == AddToGroup(before, e);
      assert listed[..n + 1][..n] == listed[..n];
      n := n + 1;
    }
    assert listed[..n] == listed;
    GroupsPartition(listed);
    if Sorted(listed) {
      SortedIsContiguous(listed);
      GroupsConcat(listed);
    }
  }
}
