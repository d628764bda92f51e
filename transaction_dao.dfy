/**
 * The `transactions` table and its data-access object: the rows held in memory, the
 * `@Query` reads as functions over the rows, and `@Insert`/`@Update`/`@Delete`/`DELETE FROM`
 * as methods of a table object that change the rows in place.
 */
module TransactionDao {
  import opened Wrappers
  import Sorting

  /** A row of the table; `value` is held in cents and `date` in epoch milliseconds. */
  datatype Transaction = Transaction(
    id: int,
    value: int,
    date: int,
    category: string,
    location: string,
    description: string
  )

  /** Inclusive bounds `startDate <= date <= endDate`, in epoch milliseconds. */
  datatype DateRange = DateRange(start: int, end: int)

  /** The WHERE clause of a query: an optional exact category and an optional date range. */
  datatype RowFilter = RowFilter(category: Option<string>, range: Option<DateRange>)

  const NoFilter := RowFilter(None, None)

  predicate InRange(range: DateRange, t: Transaction) {
    range.start <= t.date && t.date <= range.end
  }

  predicate Matches(f: RowFilter, t: Transaction) {
    && (f.category.None? || t.category == f.category.value)
    && (f.range.None? || InRange(f.range.value, t))
  }

  function DateKey(t: Transaction): int { t.date }

  function Value(t: Transaction): int { t.value }

  /** The rows satisfying the filter, each as often as it occurs in the table. */
  function Where(rows: seq<Transaction>, f: RowFilter): (r: seq<Transaction>)
    ensures forall t :: t in r <==> t in rows && Matches(f, t)
    ensures forall t :: multiset(r)[t] == if Matches(f, t) then multiset(rows)[t] else 0
  {
    if rows == [] then []
    else
      assert rows == [rows[0]] + rows[1..];
      if Matches(f, rows[0]) then [rows[0]] + Where(rows[1..], f) else Where(rows[1..], f)
  }

  /** `SELECT * FROM transactions WHERE <f> ORDER BY date DESC`. */
  function Select(rows: seq<Transaction>, f: RowFilter): (r: seq<Transaction>)
    ensures forall t :: multiset(r)[t] == if Matches(f, t) then multiset(rows)[t] else 0
    ensures Sorting.SortedDesc(r, DateKey)
  {
    Sorting.SortDesc(Where(rows, f), DateKey)
  }

  /** Every row of the table, latest first. */
  function GetAllTransactions(rows: seq<Transaction>): (r: seq<Transaction>)
    ensures multiset(r) == multiset(rows)
    ensures Sorting.SortedDesc(r, DateKey)
  {
    var r := Select(rows, NoFilter);
    assert multiset(r) == multiset(rows) by {
      forall t ensures multiset(r)[t] == multiset(rows)[t] { }
    }
    r
  }

  /** The rows whose category is exactly `category`, latest first. */
  function GetTransactionsByCategory(rows: seq<Transaction>, category: string): (r: seq<Transaction>)
    ensures forall t :: multiset(r)[t] == if t.category == category then multiset(rows)[t] else 0
    ensures Sorting.SortedDesc(r, DateKey)
  {
    Select(rows, RowFilter(Some(category), None))
  }

  /** The rows dated within `[startDate, endDate]`, both ends included, latest first. */
  function GetTransactionsByDateRange(rows: seq<Transaction>, startDate: int, endDate: int): (r: seq<Transaction>)
    ensures forall t :: multiset(r)[t] == if startDate <= t.date <= endDate then multiset(rows)[t] else 0
    ensures Sorting.SortedDesc(r, DateKey)
  {
    Select(rows, RowFilter(None, Some(DateRange(startDate, endDate))))
  }

  /** The rows of `category` dated within `[startDate, endDate]`, latest first. */
  function GetTransactionsByCategoryAndDateRange(
    rows: seq<Transaction>, category: string, startDate: int, endDate: int): (r: seq<Transaction>)
    ensures forall t :: (multiset(r)[t]
      == if t.category == category && startDate <= t.date <= endDate then multiset(rows)[t] else 0)
    ensures Sorting.SortedDesc(r, DateKey)
  {
    Select(rows, RowFilter(Some(category), Some(DateRange(startDate, endDate))))
  }

  /** The category+range query returns exactly the rows that both single-filter queries return. */
  lemma CategoryAndRangeIsIntersection(rows: seq<Transaction>, category: string, startDate: int, endDate: int)
    ensures forall t :: (t in GetTransactionsByCategoryAndDateRange(rows, category, startDate, endDate)
      <==> t in GetTransactionsByCategory(rows, category) && t in GetTransactionsByDateRange(rows, startDate, endDate))
  {
    var both := GetTransactionsByCategoryAndDateRange(rows, category, startDate, endDate);
    var byCategory := GetTransactionsByCategory(rows, category);
    var byRange := GetTransactionsByDateRange(rows, startDate, endDate);
    forall t ensures t in both <==> t in byCategory && t in byRange {
      assert t in both <==> multiset(both)[t] > 0;
      assert t in byCategory <==> multiset(byCategory)[t] > 0;
      assert t in byRange <==> multiset(byRange)[t] > 0;
    }
  }

  // ----- SELECT DISTINCT category … ORDER BY category -----

  /** SQLite's BINARY collation on text: code point by code point, a proper prefix first. */
  predicate StrLess(a: string, b: string) {
    if a == [] then b != []
    else if b == [] then false
    else if a[0] < b[0] then true
    else a[0] == b[0] && StrLess(a[1..], b[1..])
  }

  lemma {:induction false} StrLessIrreflexive(a: string)
    ensures !StrLess(a, a)
  {
    if a != [] {
      StrLessIrreflexive(a[1..]);
    }
  }

  lemma {:induction false} StrLessTransitive(a: string, b: string, c: string)
    requires StrLess(a, b) && StrLess(b, c)
    ensures StrLess(a, c)
  {
    if a != [] && b != [] && c != [] && a[0] == b[0] == c[0] {
      StrLessTransitive(a[1..], b[1..], c[1..]);
    }
  }

  lemma {:induction false} StrLessTotal(a: string, b: string)
    requires a != b
    ensures StrLess(a, b) || StrLess(b, a)
  {
    if a != [] && b != [] && a[0] == b[0] {
      assert a == [a[0]] + a[1..] && b == [b[0]] + b[1..];
      StrLessTotal(a[1..], b[1..]);
    }
  }

  predicate StrictlyAscending(s: seq<string>) {
    forall i, j :: 0 <= i < j < |s| ==> StrLess(s[i], s[j])
  }

  function Categories(rows: seq<Transaction>): set<string> {
    set t | t in rows :: t.category
  }

  /** Adds `c` to an ascending list without duplicates, keeping it so. */
  function InsertCategory(c: string, l: seq<string>): (r: seq<string>)
    requires StrictlyAscending(l)
    ensures StrictlyAscending(r)
    ensures forall x :: x in r <==> x in l || x == c
  {
    if l == [] then [c]
    else if c == l[0] then l
    else if StrLess(c, l[0]) then
      var r := [c] + l;
      assert StrictlyAscending(r) by {
        forall i, j | 0 <= i < j < |r| ensures StrLess(r[i], r[j]) {
          if i == 0 && j > 1 {
            StrLessTransitive(c, l[0], l[j - 1]);
          }
        }
      }
      r
    else
      var rest := InsertCategory(c, l[1..]);
      StrLessTotal(c, l[0]);
      var r := [l[0]] + rest;
      assert StrictlyAscending(r) by {
        forall i, j | 0 <= i < j < |r| ensures StrLess(r[i], r[j]) {
          if i == 0 {
            assert r[j] in rest;
            if r[j] != c {
              var k :| 0 <= k < |l[1..]| && l[1..][k] == r[j];
              assert l[k + 1] == r[j];
            }
          } else {
            assert r[i] == rest[i - 1] && r[j] == rest[j - 1];
          }
        }
      }
      assert forall x :: x in l <==> x == l[0] || x in l[1..] by {
        assert l == [l[0]] + l[1..];
      }
      r
  }

  /** The distinct categories of the table, ascending, each once. */
  function GetAllCategories(rows: seq<Transaction>): (r: seq<string>)
    ensures StrictlyAscending(r)
    ensures forall i, j :: 0 <= i < j < |r| ==> r[i] != r[j]
    ensures forall c :: c in r <==> c in Categories(rows)
  {
    var r := if rows == [] then [] else InsertCategory(rows[0].category, GetAllCategories(rows[1..]));
    assert rows != [] ==> Categories(rows) == {rows[0].category} + Categories(rows[1..]) by {
      if rows != [] {
        assert rows == [rows[0]] + rows[1..];
      }
    }
    forall i, j | 0 <= i < j < |r| ensures r[i] != r[j] {
      if r[i] == r[j] {
        StrLessIrreflexive(r[i]);
      }
    }
    r
  }

  // ----- SELECT SUM(value) … (NULL when no row matches) -----

  function SumWhere(rows: seq<Transaction>, f: RowFilter): int {
    if rows == [] then 0
    else (if Matches(f, rows[0]) then rows[0].value else 0) + SumWhere(rows[1..], f)
  }

  lemma {:induction false} SumWhereNoMatch(rows: seq<Transaction>, f: RowFilter)
    requires forall t :: t in rows ==> !Matches(f, t)
    ensures SumWhere(rows, f) == 0
  {
    if rows != [] {
      SumWhereNoMatch(rows[1..], f);
    }
  }

  /** `SUM(value)` over the matching rows: NULL when there is none. */
  function Total(rows: seq<Transaction>, f: RowFilter): (r: Option<int>)
    ensures r.None? <==> forall t :: t in rows ==> !Matches(f, t)
    ensures r.GetOr(0) == SumWhere(rows, f)
  {
    if exists t :: t in rows && Matches(f, t) then Some(SumWhere(rows, f))
    else
      SumWhereNoMatch(rows, f);
      None
  }

  lemma {:induction false} SumWhereNoFilter(rows: seq<Transaction>)
    ensures SumWhere(rows, NoFilter) == Sorting.SumBy(rows, Value)
  {
    if rows != [] {
      SumWhereNoFilter(rows[1..]);
    }
  }

  /** NULL on an empty table, otherwise the sum of every row's value. */
  function GetTotalSpending(rows: seq<Transaction>): (r: Option<int>)
    ensures r.None? <==> rows == []
    ensures r.GetOr(0) == Sorting.SumBy(rows, Value)
  {
    SumWhereNoFilter(rows);
    assert rows != [] ==> rows[0] in rows;
    Total(rows, NoFilter)
  }

  /** NULL when no row has `category`, otherwise the sum of those rows' values. */
  function GetTotalSpendingByCategory(rows: seq<Transaction>, category: string): (r: Option<int>)
    ensures r.None? <==> category !in Categories(rows)
    ensures r.GetOr(0) == SumWhere(rows, RowFilter(Some(category), None))
  {
    Total(rows, RowFilter(Some(category), None))
  }

  /** The range total the dashboard asks for; the DAO does not declare it (see README). */
  function GetTotalSpendingByDateRange(rows: seq<Transaction>, startDate: int, endDate: int): (r: Option<int>)
    ensures r.None? <==> forall t :: t in rows ==> !(startDate <= t.date <= endDate)
    ensures r.GetOr(0) == SumWhere(rows, RowFilter(None, Some(DateRange(startDate, endDate))))
  {
    Total(rows, RowFilter(None, Some(DateRange(startDate, endDate))))
  }

  /** The category-and-range total the dashboard asks for; the DAO does not declare it (see README). */
  function GetTotalSpendingByCategoryAndDateRange(
    rows: seq<Transaction>, category: string, startDate: int, endDate: int): (r: Option<int>)
    ensures r.None? <==> forall t :: t in rows ==> !(t.category == category && startDate <= t.date <= endDate)
    ensures r.GetOr(0) == SumWhere(rows, RowFilter(Some(category), Some(DateRange(startDate, endDate))))
  {
    Total(rows, RowFilter(Some(category), Some(DateRange(startDate, endDate))))
  }

  // ----- Summing the per-category totals gives the overall total -----

  predicate NoDuplicates(cs: seq<string>) {
    forall i, j :: 0 <= i < j < |cs| ==> cs[i] != cs[j]
  }

  /** The per-category totals over `cs` within an optional range, NULLs counted as 0. */
  function CategoryTotals(cs: seq<string>, rows: seq<Transaction>, range: Option<DateRange>): int {
    if cs == [] then 0
    else Total(rows, RowFilter(Some(cs[0]), range)).GetOr(0) + CategoryTotals(cs[1..], rows, range)
  }

  /** What one row contributes to `CategoryTotals(cs, …)`. */
  function Share(cs: seq<string>, t: Transaction, range: Option<DateRange>): int {
    if cs == [] then 0
    else (if Matches(RowFilter(Some(cs[0]), range), t) then t.value else 0) + Share(cs[1..], t, range)
  }

  lemma {:induction false} CategoryTotalsOfNoRows(cs: seq<string>, range: Option<DateRange>)
    ensures CategoryTotals(cs, [], range) == 0
  {
    if cs != [] {
      CategoryTotalsOfNoRows(cs[1..], range);
    }
  }

  lemma {:induction false} CategoryTotalsSplit(cs: seq<string>, rows: seq<Transaction>, range: Option<DateRange>)
    requires rows != []
    ensures CategoryTotals(cs, rows, range) == Share(cs, rows[0], range) + CategoryTotals(cs, rows[1..], range)
  {
    if cs != [] {
      CategoryTotalsSplit(cs[1..], rows, range);
    }
  }

  lemma {:induction false} ShareAbsent(cs: seq<string>, t: Transaction, range: Option<DateRange>)
    requires t.category !in cs
    ensures Share(cs, t, range) == 0
  {
    if cs != [] {
      ShareAbsent(cs[1..], t, range);
    }
  }

  lemma {:induction false} ShareOnce(cs: seq<string>, t: Transaction, range: Option<DateRange>)
    requires NoDuplicates(cs)
    requires Matches(RowFilter(None, range), t) ==> t.category in cs
    ensures Share(cs, t, range) == if Matches(RowFilter(None, range), t) then t.value else 0
  {
    if cs != [] {
      assert NoDuplicates(cs[1..]) by {
        forall i, j | 0 <= i < j < |cs[1..]| ensures cs[1..][i] != cs[1..][j] {
          assert cs[1..][i] == cs[i + 1] && cs[1..][j] == cs[j + 1];
        }
      }
      if cs[0] == t.category {
        assert t.category !in cs[1..] by {
          forall k | 0 <= k < |cs[1..]| ensures cs[1..][k] != t.category {
            assert cs[1..][k] == cs[k + 1];
          }
        }
        ShareAbsent(cs[1..], t, range);
      } else {
        assert Matches(RowFilter(None, range), t) ==> t.category in cs[1..];
        ShareOnce(cs[1..], t, range);
      }
    } else {
      assert !Matches(RowFilter(None, range), t);
    }
  }

  /** Over any duplicate-free list covering the matching rows' categories, the category totals add up to the total. */
  lemma {:induction false} CategoryTotalsAddUp(cs: seq<string>, rows: seq<Transaction>, range: Option<DateRange>)
    requires NoDuplicates(cs)
    requires forall t :: t in rows && Matches(RowFilter(None, range), t) ==> t.category in cs
    ensures CategoryTotals(cs, rows, range) == Total(rows, RowFilter(None, range)).GetOr(0)
  {
    if rows == [] {
      CategoryTotalsOfNoRows(cs, range);
    } else {
      assert rows[0] in rows;
      assert forall t :: t in rows[1..] ==> t in rows;
      CategoryTotalsSplit(cs, rows, range);
      ShareOnce(cs, rows[0], range);
      CategoryTotalsAddUp(cs, rows[1..], range);
    }
  }

  /** Summing `getTotalSpendingByCategory` over `getAllCategories` (NULL as 0) gives `getTotalSpending`. */
  lemma CategoryTotalsMakeTotalSpending(rows: seq<Transaction>)
    ensures CategoryTotals(GetAllCategories(rows), rows, None) == GetTotalSpending(rows).GetOr(0)
  {
    var cs := GetAllCategories(rows);
    forall t | t in rows && Matches(RowFilter(None, None), t) ensures t.category in cs {
      assert t.category in Categories(rows);
    }
    CategoryTotalsAddUp(cs, rows, None);
  }

  // ----- Mutations -----

  predicate HasId(rows: seq<Transaction>, id: int) {
    exists t :: t in rows && t.id == id
  }

  /** The primary key: no two rows share an id. */
  predicate UniqueIds(rows: seq<Transaction>) {
    forall i, j :: 0 <= i < j < |rows| ==> rows[i].id != rows[j].id
  }

  /** `UPDATE transactions SET … WHERE id = t.id`: only the row with `t`'s key changes. */
  function ReplaceById(rows: seq<Transaction>, t: Transaction): (r: seq<Transaction>)
    ensures |r| == |rows|
    ensures forall i :: 0 <= i < |rows| ==> r[i] == if rows[i].id == t.id then t else rows[i]
  {
    if rows == [] then []
    else [if rows[0].id == t.id then t else rows[0]] + ReplaceById(rows[1..], t)
  }

  /** `DELETE FROM transactions WHERE id = id`: exactly the rows with other keys stay, each as often as before. */
  function RemoveById(rows: seq<Transaction>, id: int): (r: seq<Transaction>)
    ensures forall t :: t in r <==> t in rows && t.id != id
    ensures forall t :: multiset(r)[t] == if t.id == id then 0 else multiset(rows)[t]
    ensures !HasId(rows, id) ==> r == rows
  {
    if rows == [] then []
    else
      assert rows == [rows[0]] + rows[1..];
      if rows[0].id == id then RemoveById(rows[1..], id)
      else [rows[0]] + RemoveById(rows[1..], id)
  }

  /** Replacing by key keeps every key where it was: unique keys stay unique, and an absent key changes nothing. */
  lemma ReplaceByIdKeepsKeys(rows: seq<Transaction>, t: Transaction)
    ensures UniqueIds(rows) ==> UniqueIds(ReplaceById(rows, t))
    ensures !HasId(rows, t.id) ==> ReplaceById(rows, t) == rows
    ensures HasId(rows, t.id) ==> t in ReplaceById(rows, t)
  {
    var r := ReplaceById(rows, t);
    if UniqueIds(rows) {
      forall a, b | 0 <= a < b < |r| ensures r[a].id != r[b].id {
        assert r[a].id == rows[a].id && r[b].id == rows[b].id;
      }
    }
    if !HasId(rows, t.id) {
      forall i | 0 <= i < |rows| ensures r[i] == rows[i] {
        assert rows[i] in rows;
      }
    } else {
      var k :| k in rows && k.id == t.id;
      var i :| 0 <= i < |rows| && rows[i] == k;
      assert r[i] == t;
    }
  }

  lemma TailKeys(rows: seq<Transaction>)
    requires UniqueIds(rows) && rows != []
    ensures UniqueIds(rows[1..])
    ensures forall x :: x in rows[1..] ==> x.id != rows[0].id
  {
    var tail := rows[1..];
    forall i, j | 0 <= i < j < |tail| ensures tail[i].id != tail[j].id {
      assert tail[i] == rows[i + 1] && tail[j] == rows[j + 1];
    }
    forall x | x in tail ensures x.id != rows[0].id {
      var k :| 0 <= k < |tail| && tail[k] == x;
      assert rows[k + 1] == x;
    }
  }

  lemma ConsKeys(x: Transaction, rest: seq<Transaction>)
    requires UniqueIds(rest)
    requires forall y :: y in rest ==> y.id != x.id
    ensures UniqueIds([x] + rest)
  {
    var r := [x] + rest;
    forall i, j | 0 <= i < j < |r| ensures r[i].id != r[j].id {
      assert r[j] == rest[j - 1];
      if i > 0 {
        assert r[i] == rest[i - 1];
      }
    }
  }

  /** Removing rows keeps the keys unique. */
  lemma {:induction false} RemoveByIdKeepsKeys(rows: seq<Transaction>, id: int)
    requires UniqueIds(rows)
    ensures UniqueIds(RemoveById(rows, id))
  {
    if rows != [] {
      TailKeys(rows);
      RemoveByIdKeepsKeys(rows[1..], id);
      if rows[0].id != id {
        ConsKeys(rows[0], RemoveById(rows[1..], id));
      }
    }
  }

  /** Deleting a key twice leaves the table as deleting it once. */
  lemma RemoveByIdIdempotent(rows: seq<Transaction>, id: int)
    ensures RemoveById(RemoveById(rows, id), id) == RemoveById(rows, id)
  {
    var once := RemoveById(rows, id);
    assert !HasId(once, id);
  }

  function Max(a: int, b: int): int { if a < b then b else a }

  /** The table. `lastId` is the largest key ever issued (SQLite's AUTOINCREMENT counter). */
  class TransactionTable {
    var rows: seq<Transaction>
    var lastId: int

    ghost predicate Valid()
      reads this
    {
      0 <= lastId && UniqueIds(rows) && forall t :: t in rows ==> t.id <= lastId
    }

    constructor ()
      ensures Valid() && rows == [] && lastId == 0
    {
      rows := [];
      lastId := 0;
    }

    /**
     * `@Insert`: an id of 0 means "not set" and a fresh key above every key ever issued is
     * taken; an explicit id that is already present aborts the insert and the table is unchanged.
     */
    method Insert(t: Transaction) returns (inserted: bool)
      requires Valid()
      modifies this
      ensures Valid()
      ensures t.id == 0 ==> inserted && lastId == old(lastId) + 1 && rows == old(rows) + [t.(id := lastId)]
      ensures t.id != 0 ==> inserted == !HasId(old(rows), t.id)
      ensures t.id != 0 && inserted ==> rows == old(rows) + [t] && lastId == Max(old(lastId), t.id)
      ensures !inserted ==> rows == old(rows) && lastId == old(lastId)
    {
      if t.id == 0 {
        lastId := lastId + 1;
        rows := rows + [t.(id := lastId)];
        inserted := true;
      } else if exists row :: row in rows && row.id == t.id {
        inserted := false;
      } else {
        rows := rows + [t];
        lastId := Max(lastId, t.id);
        inserted := true;
      }
    }

    /** `@Update`: replaces the row with `t`'s key; a key that is absent changes nothing. */
    method Update(t: Transaction)
      requires Valid()
      modifies this
      ensures Valid() && lastId == old(lastId)
      ensures rows == ReplaceById(old(rows), t)
      ensures !HasId(old(rows), t.id) ==> rows == old(rows)
    {
      var before := rows;
      ReplaceByIdKeepsKeys(before, t);
      rows := ReplaceById(rows, t);
      forall x | x in rows ensures x.id <= lastId {
        var i :| 0 <= i < |rows| && rows[i] == x;
        assert before[i] in before;
      }
    }

    /** `@Delete`: removes the row with `t`'s key (only the key is compared); absent keys change nothing. */
    method Delete(t: Transaction)
      requires Valid()
      modifies this
      ensures Valid() && lastId == old(lastId)
      ensures rows == RemoveById(old(rows), t.id)
    {
      RemoveByIdKeepsKeys(rows, t.id);
      rows := RemoveById(rows, t.id);
    }

    /** `DELETE FROM transactions`: every query is then empty and every total NULL; keys are not reused. */
    method DeleteAll()
      requires Valid()
      modifies this
      ensures Valid() && lastId == old(lastId) && rows == []
      ensures GetAllTransactions(rows) == [] && GetAllCategories(rows) == [] && GetTotalSpending(rows) == None
      ensures forall c :: GetTransactionsByCategory(rows, c) == [] && GetTotalSpendingByCategory(rows, c) == None
      ensures forall s, e :: GetTransactionsByDateRange(rows, s, e) == [] && GetTotalSpendingByDateRange(rows, s, e) == None
      ensures forall c, s, e :: GetTransactionsByCategoryAndDateRange(rows, c, s, e) == []
                             && GetTotalSpendingByCategoryAndDateRange(rows, c, s, e) == None
    {
      rows := [];
    }
  }
}
