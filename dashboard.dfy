/**
 * The dashboard's category breakdown: for every category with a positive (optionally
 * date-scoped) sum, its amount and its share of the total, largest first, plus the
 * loading/error/date-range state around it.
 */
module Dashboard {
  import opened Wrappers
  import Sorting
  import opened TransactionDao

  /** One slice of the breakdown; `amount` in cents, `percentage` as an exact real. */
  datatype CategorySpending = CategorySpending(category: string, amount: int, percentage: real)

  datatype DashboardUiState = DashboardUiState(
    categorySpending: seq<CategorySpending>,
    totalSpending: int,
    isLoading: bool,
    error: Option<string>,
    startDate: Option<int>,
    endDate: Option<int>
  )

  const DefaultState := DashboardUiState([], 0, true, None, None, None)

  /** One per-category lookup (`….first() ?: 0.0` inside `try`): it threw, or it produced a nullable sum. */
  datatype SumLookup = LookupFailed | LookupResult(sum: Option<int>)

  function AmountKey(e: CategorySpending): int { e.amount }

  function Names(list: seq<CategorySpending>): (r: seq<string>)
    ensures |r| == |list| && forall i :: 0 <= i < |list| ==> r[i] == list[i].category
  {
    seq(|list|, i requires 0 <= i < |list| => list[i].category)
  }

  function Percentage(amount: int, total: int): real
    requires total > 0
  {
    amount as real / total as real * 100.0
  }

  lemma PositiveShare(amount: int, total: int)
    requires amount > 0 && total > 0
    ensures Percentage(amount, total) > 0.0
  {
    assert amount as real / total as real > 0.0;
  }

  /** A category that makes it into the breakdown: its lookup succeeded with a positive sum. */
  predicate Counted(c: string, lookup: string -> SumLookup) {
    lookup(c).LookupResult? && lookup(c).sum.GetOr(0) > 0
  }

  /** What one category adds to `categorySpendingList`. */
  function EntryFor(c: string, total: int, lookup: string -> SumLookup): (r: seq<CategorySpending>)
    requires total > 0
    ensures |r| <= 1
    ensures r != [] <==> Counted(c, lookup)
    ensures r != [] ==> r[0] == CategorySpending(c, lookup(c).sum.GetOr(0), Percentage(lookup(c).sum.GetOr(0), total))
  {
    match lookup(c)
    case LookupFailed => []
    case LookupResult(s) =>
      var amount := s.GetOr(0);
      if amount > 0 then [CategorySpending(c, amount, Percentage(amount, total))] else []
  }

  /** `categorySpendingList` after the `forEach` over `categories`. */
  function Collected(categories: seq<string>, total: int, lookup: string -> SumLookup): seq<CategorySpending>
    requires total > 0
  {
    if categories == [] then []
    else EntryFor(categories[0], total, lookup) + Collected(categories[1..], total, lookup)
  }

  /**
   * Each collected slice belongs to a listed category whose lookup succeeded with its positive
   * amount; every such category is collected, and distinct categories give distinct slices.
   */
  lemma CollectedEntries(categories: seq<string>, total: int, lookup: string -> SumLookup)
    requires total > 0
    ensures var r := Collected(categories, total, lookup);
      && (forall e :: e in r ==>
        && e.category in categories
        && lookup(e.category) == LookupResult(Some(e.amount))
        && e.amount > 0
        && e.percentage == Percentage(e.amount, total))
      && (forall c :: c in Names(r) <==> c in categories && Counted(c, lookup))
      && (NoDuplicates(categories) ==> NoDuplicates(Names(r)))
  {
    CollectedSlices(categories, total, lookup);
    CollectedNames(categories, total, lookup);
    if NoDuplicates(categories) {
      CollectedDistinct(categories, total, lookup);
    }
  }

  lemma {:induction false} CollectedSlices(categories: seq<string>, total: int, lookup: string -> SumLookup)
    requires total > 0
    ensures forall e :: e in Collected(categories, total, lookup) ==>
      && e.category in categories
      && lookup(e.category) == LookupResult(Some(e.amount))
      && e.amount > 0
      && e.percentage == Percentage(e.amount, total)
  {
    if categories != [] {
      CollectedSlices(categories[1..], total, lookup);
      assert categories == [categories[0]] + categories[1..];
    }
  }

  lemma {:induction false} CollectedNames(categories: seq<string>, total: int, lookup: string -> SumLookup)
    requires total > 0
    ensures forall c :: c in Names(Collected(categories, total, lookup)) <==> c in categories && Counted(c, lookup)
  {
    if categories != [] {
      var head := EntryFor(categories[0], total, lookup);
      var rest := Collected(categories[1..], total, lookup);
      CollectedNames(categories[1..], total, lookup);
      assert categories == [categories[0]] + categories[1..];
      assert Names(head + rest) == Names(head) + Names(rest);
    }
  }

  lemma NoDuplicatesTail(s: seq<string>)
    requires s != [] && NoDuplicates(s)
    ensures s[0] !in s[1..] && NoDuplicates(s[1..])
  {
    forall k | 0 <= k < |s[1..]| ensures s[1..][k] != s[0] {
      assert s[1..][k] == s[k + 1];
    }
    forall i, j | 0 <= i < j < |s[1..]| ensures s[1..][i] != s[1..][j] {
      assert s[1..][i] == s[i + 1] && s[1..][j] == s[j + 1];
    }
  }

  lemma {:induction false} CollectedDistinct(categories: seq<string>, total: int, lookup: string -> SumLookup)
    requires total > 0 && NoDuplicates(categories)
    ensures NoDuplicates(Names(Collected(categories, total, lookup)))
  {
    if categories != [] {
      var head := EntryFor(categories[0], total, lookup);
      var rest := Collected(categories[1..], total, lookup);
      NoDuplicatesTail(categories);
      CollectedDistinct(categories[1..], total, lookup);
      CollectedNames(categories[1..], total, lookup);
      var names := Names(head + rest);
      forall i, j | 0 <= i < j < |names| ensures names[i] != names[j] {
        if i < |head| {
          assert names[i] == categories[0];
          assert names[j] == Names(rest)[j - |head|];
          assert names[j] in Names(rest);
        } else {
          assert names[i] == Names(rest)[i - |head|] && names[j] == Names(rest)[j - |head|];
        }
      }
    }
  }

  /** The loop adds at most one slice per category. */
  lemma {:induction false} CollectedLength(categories: seq<string>, total: int, lookup: string -> SumLookup)
    requires total > 0
    ensures |Collected(categories, total, lookup)| <= |categories|
  {
    if categories != [] {
      CollectedLength(categories[1..], total, lookup);
    }
  }

  /** The loop's step: collecting one more category appends its entry. */
  lemma {:induction false} CollectedAppend(categories: seq<string>, c: string, total: int, lookup: string -> SumLookup)
    requires total > 0
    ensures Collected(categories + [c], total, lookup) == Collected(categories, total, lookup) + EntryFor(c, total, lookup)
  {
    if categories == [] {
      assert [c][1..] == [];
    } else {
      assert (categories + [c])[1..] == categories[1..] + [c];
      CollectedAppend(categories[1..], c, total, lookup);
    }
  }

  /** Collecting the categories up to `i + 1` appends the entry of category `i`. */
  lemma CollectedStep(categories: seq<string>, i: nat, total: int, lookup: string -> SumLookup)
    requires i < |categories| && total > 0
    ensures Collected(categories[..i + 1], total, lookup)
         == Collected(categories[..i], total, lookup) + EntryFor(categories[i], total, lookup)
  {
    assert categories[..i + 1] == categories[..i] + [categories[i]];
    CollectedAppend(categories[..i], categories[i], total, lookup);
  }

  /**
   * The `combine` lambda: the list of slices and the total (NULL read as 0). No categories or
   * a non-positive total give an empty list; otherwise the collected slices, stably sorted
   * by amount, largest first.
   */
  function Breakdown(categories: seq<string>, total: Option<int>, lookup: string -> SumLookup): (r: (seq<CategorySpending>, int))
    ensures r.1 == total.GetOr(0)
    ensures |r.0| <= |categories|
  {
    var totalAmount := total.GetOr(0);
    if |categories| == 0 || totalAmount <= 0 then ([], totalAmount)
    else
      CollectedLength(categories, totalAmount, lookup);
      (Sorting.SortDesc(Collected(categories, totalAmount, lookup), AmountKey), totalAmount)
  }

  /** The body of the `combine` lambda, with its `forEach` loop and `sortedByDescending`. */
  method Combine(categories: seq<string>, total: Option<int>, lookup: string -> SumLookup)
    returns (list: seq<CategorySpending>, totalAmount: int)
    ensures (list, totalAmount) == Breakdown(categories, total, lookup)
  {
    totalAmount := total.GetOr(0);
    if |categories| == 0 || totalAmount <= 0 {
      return [], totalAmount;
    }
    var spending: seq<CategorySpending> := [];
    var i := 0;
    while i < |categories|
      invariant 0 <= i <= |categories|
      invariant spending == Collected(categories[..i], totalAmount, lookup)
    {
      var category := categories[i];
      ghost var before := spending;
      match lookup(category) {
        case LookupFailed =>
        case LookupResult(s) =>
          var categoryAmount := s.GetOr(0);
          if categoryAmount > 0 {
            var percentage := categoryAmount as real / totalAmount as real * 100.0;
            spending := spending + [CategorySpending(category, categoryAmount, percentage)];
          }
      }
      assert spending == before + EntryFor(category, totalAmount, lookup);
      CollectedStep(categories, i, totalAmount, lookup);
      i := i + 1;
    }
    assert categories[..i] == categories;
    list := Sorting.SortDesc(spending, AmountKey);
  }

  /** Every slice is positive, comes from a category whose lookup succeeded, and carries amount / total * 100. */
  lemma BreakdownEntries(categories: seq<string>, total: Option<int>, lookup: string -> SumLookup)
    ensures var (list, totalAmount) := Breakdown(categories, total, lookup);
      && totalAmount == total.GetOr(0)
      && (|categories| == 0 || totalAmount <= 0 ==> list == [])
      && forall e :: e in list ==>
        && e.category in categories
        && lookup(e.category) == LookupResult(Some(e.amount))
        && e.amount > 0
        && totalAmount > 0
        && e.percentage == e.amount as real / totalAmount as real * 100.0
        && e.percentage > 0.0
  {
    var (list, totalAmount) := Breakdown(categories, total, lookup);
    if |categories| > 0 && totalAmount > 0 {
      var collected := Collected(categories, totalAmount, lookup);
      CollectedEntries(categories, totalAmount, lookup);
      forall e | e in list
        ensures e.category in categories && lookup(e.category) == LookupResult(Some(e.amount)) && e.amount > 0
        ensures e.percentage == e.amount as real / totalAmount as real * 100.0 && e.percentage > 0.0
      {
        assert e in multiset(list);
        assert e in collected;
        PositiveShare(e.amount, totalAmount);
      }
    }
  }

  /**
   * A category appears in the breakdown exactly when its lookup succeeded with a positive sum:
   * a failing lookup drops only that category. With distinct categories, each appears at most once.
   */
  lemma BreakdownCategories(categories: seq<string>, total: Option<int>, lookup: string -> SumLookup)
    requires |categories| > 0 && total.GetOr(0) > 0
    ensures var list := Breakdown(categories, total, lookup).0;
      && (forall c :: c in Names(list) <==> c in categories && Counted(c, lookup))
      && (NoDuplicates(categories) ==> NoDuplicates(Names(list)))
  {
    var totalAmount := total.GetOr(0);
    var collected := Collected(categories, totalAmount, lookup);
    var list := Breakdown(categories, total, lookup).0;
    CollectedEntries(categories, totalAmount, lookup);
    NamesOfPermutation(list, collected);
    NamesOfPermutation(collected, list);
    if NoDuplicates(categories) {
      SortKeepsDistinctNames(collected);
    }
  }

  /** Reordering a list keeps its set of names. */
  lemma NamesOfPermutation(a: seq<CategorySpending>, b: seq<CategorySpending>)
    requires multiset(a) == multiset(b)
    ensures forall c :: c in Names(a) ==> c in Names(b)
  {
    forall c | c in Names(a) ensures c in Names(b) {
      var i :| 0 <= i < |a| && a[i].category == c;
      assert a[i] in multiset(b);
      var j :| 0 <= j < |b| && b[j] == a[i];
      assert Names(b)[j] == c;
    }
  }

  lemma NamesCons(e: CategorySpending, s: seq<CategorySpending>)
    ensures Names([e] + s) == [e.category] + Names(s)
  {
    var l := [e] + s;
    assert forall i :: 1 <= i < |l| ==> l[i] == s[i - 1];
  }

  lemma NamesTail(s: seq<CategorySpending>)
    requires s != []
    ensures Names(s[1..]) == Names(s)[1..]
  {
  }

  lemma DistinctCons(h: string, rest: seq<string>)
    requires h !in rest && NoDuplicates(rest)
    ensures NoDuplicates([h] + rest)
  {
    var l := [h] + rest;
    forall i, j | 0 <= i < j < |l| ensures l[i] != l[j] {
      assert l[j] == rest[j - 1];
      if i > 0 {
        assert l[i] == rest[i - 1];
      }
    }
  }

  /** A name in a list after inserting `x` is the name of `x` or a name already in the list. */
  lemma NameOfInsert(x: CategorySpending, s: seq<CategorySpending>, c: string)
    requires c in Names(Sorting.InsertDesc(x, s, AmountKey))
    ensures c == x.category || c in Names(s)
  {
    var r := Sorting.InsertDesc(x, s, AmountKey);
    var i :| 0 <= i < |r| && Names(r)[i] == c;
    assert r[i] in multiset(r);
    if r[i] != x {
      assert r[i] in multiset(s);
      var j :| 0 <= j < |s| && s[j] == r[i];
      assert Names(s)[j] == c;
    }
  }

  lemma {:induction false} InsertKeepsDistinctNames(x: CategorySpending, s: seq<CategorySpending>)
    requires NoDuplicates(Names(s)) && x.category !in Names(s)
    ensures NoDuplicates(Names(Sorting.InsertDesc(x, s, AmountKey)))
  {
    if s == [] {
      assert Sorting.InsertDesc(x, s, AmountKey) == [x];
    } else if s[0].amount <= x.amount {
      NamesCons(x, s);
      DistinctCons(x.category, Names(s));
    } else {
      var rest := Sorting.InsertDesc(x, s[1..], AmountKey);
      NamesTail(s);
      NoDuplicatesTail(Names(s));
      assert x.category !in Names(s[1..]) by {
        assert forall c :: c in Names(s)[1..] ==> c in Names(s);
      }
      InsertKeepsDistinctNames(x, s[1..]);
      assert Names(s)[0] == s[0].category;
      assert s[0].category !in Names(rest) by {
        if s[0].category in Names(rest) {
          NameOfInsert(x, s[1..], s[0].category);
          assert false;
        }
      }
      NamesCons(s[0], rest);
      DistinctCons(s[0].category, Names(rest));
    }
  }

  lemma {:induction false} SortKeepsDistinctNames(s: seq<CategorySpending>)
    requires NoDuplicates(Names(s))
    ensures NoDuplicates(Names(Sorting.SortDesc(s, AmountKey)))
  {
    if s != [] {
      var tail := s[1..];
      NamesTail(s);
      NoDuplicatesTail(Names(s));
      SortKeepsDistinctNames(tail);
      var sorted := Sorting.SortDesc(tail, AmountKey);
      NamesOfPermutation(sorted, tail);
      InsertKeepsDistinctNames(s[0], sorted);
    }
  }

  /**
   * Slices are ordered by amount, largest first, and slices of equal amount keep the order in
   * which their categories were listed.
   */
  lemma BreakdownOrder(categories: seq<string>, total: Option<int>, lookup: string -> SumLookup)
    requires |categories| > 0 && total.GetOr(0) > 0
    ensures var list := Breakdown(categories, total, lookup).0;
      && Sorting.SortedDesc(list, AmountKey)
      && forall k :: Sorting.WithKey(list, AmountKey, k)
                  == Sorting.WithKey(Collected(categories, total.GetOr(0), lookup), AmountKey, k)
  {
    var collected := Collected(categories, total.GetOr(0), lookup);
    forall k ensures Sorting.WithKey(Sorting.SortDesc(collected, AmountKey), AmountKey, k)
                  == Sorting.WithKey(collected, AmountKey, k) {
      Sorting.SortDescIsStable(collected, AmountKey, k);
    }
  }

  // ----- The breakdown over the table -----

  /** The date scope of a load: used only when both ends are set. */
  function DateScope(st: DashboardUiState): (r: Option<DateRange>)
    ensures r.Some? <==> st.startDate.Some? && st.endDate.Some?
    ensures r.Some? ==> r.value.start == st.startDate.value && r.value.end == st.endDate.value
  {
    if st.startDate.Some? && st.endDate.Some? then Some(DateRange(st.startDate.value, st.endDate.value))
    else None
  }

  function ScopedTotal(rows: seq<Transaction>, scope: Option<DateRange>): Option<int> {
    match scope
    case None => GetTotalSpending(rows)
    case Some(r) => GetTotalSpendingByDateRange(rows, r.start, r.end)
  }

  function ScopedCategoryTotal(rows: seq<Transaction>, scope: Option<DateRange>, c: string): Option<int> {
    match scope
    case None => GetTotalSpendingByCategory(rows, c)
    case Some(r) => GetTotalSpendingByCategoryAndDateRange(rows, c, r.start, r.end)
  }

  /** The per-category sums read from the table; the categories in `failing` throw. */
  function StoreLookup(rows: seq<Transaction>, scope: Option<DateRange>, failing: set<string>): string -> SumLookup {
    c => if c in failing then LookupFailed else LookupResult(ScopedCategoryTotal(rows, scope, c))
  }

  /** The dashboard's result for the table in a given state. */
  function StoreBreakdown(rows: seq<Transaction>, st: DashboardUiState, failing: set<string>): (seq<CategorySpending>, int) {
    Breakdown(GetAllCategories(rows), ScopedTotal(rows, DateScope(st)), StoreLookup(rows, DateScope(st), failing))
  }

  /** With only one end of the range set, the dashboard shows the unscoped totals and sums. */
  lemma HalfRangeIsUnscoped(rows: seq<Transaction>, st: DashboardUiState, failing: set<string>)
    requires st.startDate.None? || st.endDate.None?
    ensures StoreBreakdown(rows, st, failing)
         == Breakdown(GetAllCategories(rows), GetTotalSpending(rows), StoreLookup(rows, None, failing))
  {
  }

  function SumAmounts(list: seq<CategorySpending>): int {
    Sorting.SumBy(list, AmountKey)
  }

  function SumPercentages(list: seq<CategorySpending>): real {
    if list == [] then 0.0 else list[0].percentage + SumPercentages(list[1..])
  }

  lemma {:induction false} PercentagesScale(list: seq<CategorySpending>, total: int)
    requires total > 0
    requires forall e :: e in list ==> e.percentage == Percentage(e.amount, total)
    ensures SumPercentages(list) == SumAmounts(list) as real / total as real * 100.0
  {
    if list != [] {
      assert forall e :: e in list[1..] ==> e in list;
      PercentagesScale(list[1..], total);
      var a := list[0].amount;
      var rest := SumAmounts(list[1..]);
      assert SumAmounts(list) == a + rest;
      SharesAdd(a, rest, total);
    }
  }

  lemma SharesAdd(a: int, b: int, total: int)
    requires total > 0
    ensures Percentage(a, total) + b as real / total as real * 100.0 == (a + b) as real / total as real * 100.0
  {
    var t := total as real;
    assert a as real / t + b as real / t == (a as real + b as real) / t;
  }

  lemma {:induction false} SumWhereNonNegative(rows: seq<Transaction>, f: RowFilter)
    requires forall t :: t in rows ==> t.value > 0
    ensures SumWhere(rows, f) >= 0
  {
    if rows != [] {
      assert rows[0] in rows;
      assert forall t :: t in rows[1..] ==> t in rows;
      SumWhereNonNegative(rows[1..], f);
    }
  }

  /** Collected amounts add up to the per-category totals when no lookup fails. */
  lemma {:induction false} CollectedAddsUp(cs: seq<string>, rows: seq<Transaction>, scope: Option<DateRange>, total: int)
    requires total > 0
    requires forall t :: t in rows ==> t.value > 0
    ensures SumAmounts(Collected(cs, total, StoreLookup(rows, scope, {}))) == CategoryTotals(cs, rows, scope)
  {
    if cs != [] {
      var lookup := StoreLookup(rows, scope, {});
      var head := EntryFor(cs[0], total, lookup);
      var rest := Collected(cs[1..], total, lookup);
      CollectedAddsUp(cs[1..], rows, scope, total);
      SumByConcat(head, rest);
      var f := RowFilter(Some(cs[0]), scope);
      assert lookup(cs[0]) == LookupResult(Total(rows, f));
      SumWhereNonNegative(rows, f);
      assert SumAmounts(head) == Total(rows, f).GetOr(0);
    }
  }

  lemma {:induction false} SumByConcat(a: seq<CategorySpending>, b: seq<CategorySpending>)
    ensures SumAmounts(a + b) == SumAmounts(a) + SumAmounts(b)
  {
    if a != [] {
      assert (a + b)[1..] == a[1..] + b;
      SumByConcat(a[1..], b);
    } else {
      assert a + b == b;
    }
  }

  /**
   * When every row is a positive amount and no lookup fails, the slices account for the whole
   * (scoped) total: their amounts add up to it and their percentages to 100.
   */
  lemma BreakdownAccountsForTotal(rows: seq<Transaction>, st: DashboardUiState)
    requires forall t :: t in rows ==> t.value > 0
    ensures var (list, total) := StoreBreakdown(rows, st, {});
      && SumAmounts(list) == total
      && (total > 0 ==> SumPercentages(list) == 100.0)
  {
    var scope := DateScope(st);
    var cs := GetAllCategories(rows);
    var lookup := StoreLookup(rows, scope, {});
    var (list, total) := StoreBreakdown(rows, st, {});
    var f := RowFilter(None, scope);
    assert ScopedTotal(rows, scope) == Total(rows, f);
    SumWhereNonNegative(rows, f);
    forall t | t in rows && Matches(f, t) ensures t.category in cs {
      assert t.category in Categories(rows);
    }
    CategoryTotalsAddUp(cs, rows, scope);
    if |cs| > 0 && total > 0 {
      CollectedAddsUp(cs, rows, scope, total);
      CollectedEntries(cs, total, lookup);
      SortedSharesAddUp(Collected(cs, total, lookup), total);
    }
  }

  /** Sorting collected slices whose amounts make up `total` gives shares adding up to 100. */
  lemma SortedSharesAddUp(collected: seq<CategorySpending>, total: int)
    requires total > 0 && SumAmounts(collected) == total
    requires forall e :: e in collected ==> e.percentage == Percentage(e.amount, total)
    ensures SumAmounts(Sorting.SortDesc(collected, AmountKey)) == total
    ensures SumPercentages(Sorting.SortDesc(collected, AmountKey)) == 100.0
  {
    var list := Sorting.SortDesc(collected, AmountKey);
    Sorting.SortDescKeepsSum(collected, AmountKey, AmountKey);
    SortedKeepsShares(collected, total);
    PercentagesScale(list, total);
    WholeShare(total);
  }

  lemma SortedKeepsShares(collected: seq<CategorySpending>, total: int)
    requires total > 0
    requires forall e :: e in collected ==> e.percentage == Percentage(e.amount, total)
    ensures forall e :: e in Sorting.SortDesc(collected, AmountKey) ==> e.percentage == Percentage(e.amount, total)
  {
    var list := Sorting.SortDesc(collected, AmountKey);
    forall e | e in list ensures e.percentage == Percentage(e.amount, total) {
      assert e in multiset(list);
      assert e in collected;
    }
  }

  lemma WholeShare(total: int)
    requires total > 0
    ensures total as real / total as real * 100.0 == 100.0
  {
    assert total as real / total as real == 1.0;
  }

  /** The dashboard screen's state holder. */
  class DashboardViewModel {
    var state: DashboardUiState
    const store: TransactionTable

    /**
     * `init`: the range runs from the start of the current month (the 1st at 00:00:00.000) to the
     * end of today (23:59:59.999), so rows dated later this month fall outside it; `monthStart`
     * and `todayEnd` come from the clock.
     */
    constructor (store: TransactionTable, monthStart: int, todayEnd: int)
      ensures this.store == store
      ensures state == DefaultState.(startDate := Some(monthStart), endDate := Some(todayEnd))
    {
      this.store := store;
      state := DefaultState.(startDate := Some(monthStart), endDate := Some(todayEnd));
    }

    /**
     * One emission of `loadSpendingData`: the current table combined into a breakdown (the
     * categories in `failing` throw on lookup), or a top-level `failure`.
     */
    method LoadSpendingData(failing: set<string>, failure: Option<string>)
      modifies this
      ensures failure.Some? ==>
        state == old(state).(isLoading := false, error := Some("Failed to load spending data: " + failure.value))
      ensures failure.None? ==>
        var (list, total) := StoreBreakdown(store.rows, old(state), failing);
        state == old(state).(categorySpending := list, totalSpending := total, isLoading := false, error := None)
    {
      if failure.Some? {
        state := state.(isLoading := false, error := Some("Failed to load spending data: " + failure.value));
      } else {
        var scope := DateScope(state);
        var list, total := Combine(GetAllCategories(store.rows), ScopedTotal(store.rows, scope),
                                   StoreLookup(store.rows, scope, failing));
        state := state.(categorySpending := list, totalSpending := total, isLoading := false, error := None);
      }
    }

    /** `refreshSpendingData`, before the load it starts. */
    method RefreshSpendingData()
      modifies this
      ensures state == old(state).(isLoading := true, error := None)
    {
      state := state.(isLoading := true, error := None);
    }

    /** `setDateRange`, before the load it starts; an earlier error is kept. */
    method SetDateRange(startDate: Option<int>, endDate: Option<int>)
      modifies this
      ensures state == old(state).(startDate := startDate, endDate := endDate, isLoading := true)
    {
      state := state.(startDate := startDate, endDate := endDate, isLoading := true);
    }

    /** `clearDateFilter`, before the load it starts. */
    method ClearDateFilter()
      modifies this
      ensures state == old(state).(startDate := None, endDate := None, isLoading := true)
    {
      state := state.(startDate := None, endDate := None, isLoading := true);
    }
  }
}
