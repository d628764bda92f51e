/**
 * What the new-transaction form and the edit form share: turning typed text into an amount in
 * cents (digits only, at most eight of them), the amount's display text, and the category
 * suggestions under the category field.
 */
module FormFields {
  import opened Text

  /** The six categories offered when the table has none. */
  const DefaultCategories: seq<string> := ["Food", "Transportation", "Entertainment", "Shopping", "Bills", "Healthcare"]

  /** The amount field accepts at most eight digits, so amounts stay below 10^8 cents. */
  const MaxDigits := 8
  const MaxCents := 100000000

  lemma MaxCentsIsPower()
    ensures Pow10(MaxDigits) == MaxCents
    ensures Pow10(MaxDigits - 1) == MaxCents / 10
    ensures Pow10(MaxDigits - 2) == MaxCents / 100
    ensures Pow10(MaxDigits - 3) == MaxCents / 1000
  {
    assert Pow10(5) == 100000;
  }

  /** `categories.ifEmpty { defaults }`: the store's categories, or the defaults when it has none. */
  function CategoriesOrDefault(categories: seq<string>): (r: seq<string>)
    ensures r != []
    ensures categories != [] ==> r == categories
  {
    if categories == [] then DefaultCategories else categories
  }

  /** `formattedValue`: whole units, a point, two digits of cents; a minus sign in front of a negative amount. */
  function FormattedValue(valueInCents: int): (r: string)
    ensures |r| >= 4 && r[|r| - 3] == '.' && IsDigit(r[|r| - 2]) && IsDigit(r[|r| - 1])
    ensures valueInCents >= 0 <==> AllDigits(r[..|r| - 3])
    ensures valueInCents < 0 ==> r[0] == '-' && AllDigits(r[1..|r| - 3])
  {
    if valueInCents < 0 then
      var c := CentsText(-valueInCents);
      var r := "-" + c;
      assert r[1..|r| - 3] == c[..|c| - 3];
      assert !IsDigit(r[..|r| - 3][0]);
      r
    else CentsText(valueInCents)
  }

  /** The digits the new-transaction form keeps: '.' and ',' removed, then everything but digits dropped. */
  function NewFormDigits(input: string): (r: string)
    ensures r == FilterDigits(input)
  {
    FilterDigitsIgnoresNonDigit(RemoveChar(input, '.'), ',');
    FilterDigitsIgnoresNonDigit(input, '.');
    FilterDigits(RemoveChar(RemoveChar(input, '.'), ','))
  }

  /** The digits the edit form keeps: '.', ',' and '€' removed, trimmed, then everything but digits dropped. */
  function DetailFormDigits(input: string): (r: string)
    ensures r == FilterDigits(input)
  {
    var cleaned := RemoveChar(RemoveChar(input, '.'), ',');
    TrimKeepsDigits(RemoveChar(cleaned, '€'));
    FilterDigitsIgnoresNonDigit(cleaned, '€');
    FilterDigitsIgnoresNonDigit(RemoveChar(input, '.'), ',');
    FilterDigitsIgnoresNonDigit(input, '.');
    FilterDigits(Trim(RemoveChar(cleaned, '€')))
  }

  lemma {:induction false} DigitsValueBound(s: string)
    requires AllDigits(s)
    ensures DigitsValue(s) < Pow10(|s|)
  {
    if s != [] {
      DigitsValueBound(s[..|s| - 1]);
    }
  }

  /**
   * The new amount given the kept digits: their value when there are one to eight of them
   * (eight digits always fit an `Int`, so `toIntOrNull` never fails here), 0 when there are none,
   * and the previous amount when there are more.
   */
  function CentsFromDigits(digits: string, previous: int): (r: int)
    requires AllDigits(digits)
    ensures 0 < |digits| <= MaxDigits ==> r == DigitsValue(digits) && 0 <= r < MaxCents
    ensures digits == [] ==> r == 0
    ensures |digits| > MaxDigits ==> r == previous
    ensures 0 <= previous < MaxCents ==> 0 <= r < MaxCents
  {
    if 0 < |digits| <= MaxDigits then
      DigitsValueBound(digits);
      PowMonotone(|digits|, MaxDigits);
      MaxCentsIsPower();
      DigitsValue(digits)
    else if |digits| == 0 then 0
    else previous
  }

  lemma {:induction false} PowMonotone(i: nat, j: nat)
    requires i <= j
    ensures Pow10(i) <= Pow10(j)
  {
    if i < j {
      PowMonotone(i, j - 1);
    }
  }

  /**
   * `updateValue` of the new-transaction form: the amount after `input` is typed over `previous`.
   * Where the input holds one to eight digits, it is their value; where it holds none, 0; where it
   * holds more, the previous amount stays. So an amount in [0, 10^8) stays there.
   */
  function UpdatedCents(input: string, previous: int): (r: int)
    ensures var ds := FilterDigits(input);
      && (0 < |ds| <= MaxDigits ==> r == DigitsValue(ds))
      && (ds == [] ==> r == 0)
      && (|ds| > MaxDigits ==> r == previous)
    ensures 0 <= previous < MaxCents ==> 0 <= r < MaxCents
  {
    CentsFromDigits(NewFormDigits(input), previous)
  }

  /** `updateValue` of the edit form: the same three cases over the same digits ('€' and whitespace are not digits). */
  function DetailUpdatedCents(input: string, previous: int): (r: int)
    ensures var ds := FilterDigits(input);
      && (0 < |ds| <= MaxDigits ==> r == DigitsValue(ds))
      && (ds == [] ==> r == 0)
      && (|ds| > MaxDigits ==> r == previous)
    ensures 0 <= previous < MaxCents ==> 0 <= r < MaxCents
  {
    CentsFromDigits(DetailFormDigits(input), previous)
  }

  lemma {:induction false} FilterDigitsConcat(a: string, b: string)
    ensures FilterDigits(a + b) == FilterDigits(a) + FilterDigits(b)
  {
    if a != [] {
      assert (a + b)[1..] == a[1..] + b;
      FilterDigitsConcat(a[1..], b);
    } else {
      assert a + b == b;
    }
  }

  lemma {:induction false} FilterDigitsOfBlank(s: string)
    requires IsBlank(s)
    ensures FilterDigits(s) == []
  {
    if s != [] {
      assert IsWhitespace(s[0]);
      FilterDigitsOfBlank(s[1..]);
    }
  }

  lemma {:induction false} FilterDigitsIgnoresNonDigit(s: string, c: char)
    requires !IsDigit(c)
    ensures FilterDigits(RemoveChar(s, c)) == FilterDigits(s)
  {
    if s != [] {
      FilterDigitsIgnoresNonDigit(s[1..], c);
    }
  }

  lemma TrimKeepsDigits(s: string)
    ensures FilterDigits(Trim(s)) == FilterDigits(s)
  {
    TrimStartKeepsDigits(s);
    TrimEndKeepsDigits(TrimStart(s));
  }

  lemma TrimStartKeepsDigits(s: string)
    ensures FilterDigits(TrimStart(s)) == FilterDigits(s)
  {
    var front := TrimStart(s);
    TrimStartDrops(s);
    var dropped := s[..|s| - |front|];
    assert s == dropped + front;
    assert IsBlank(dropped) by {
      forall k | 0 <= k < |dropped| ensures IsWhitespace(dropped[k]) {
        assert dropped[k] == s[k];
      }
    }
    BlankAddsNoDigits(dropped, front);
  }

  lemma BlankAddsNoDigits(blank: string, rest: string)
    requires IsBlank(blank)
    ensures FilterDigits(blank + rest) == FilterDigits(rest)
  {
    FilterDigitsConcat(blank, rest);
    FilterDigitsOfBlank(blank);
  }

  lemma TrimEndKeepsDigits(s: string)
    ensures FilterDigits(TrimEnd(s)) == FilterDigits(s)
  {
    var r := TrimEnd(s);
    TrimEndDrops(s);
    var tail := s[|r|..];
    assert s == r + tail;
    assert IsBlank(tail) by {
      forall k | 0 <= k < |tail| ensures IsWhitespace(tail[k]) {
        assert tail[k] == s[|r| + k];
      }
    }
    FilterDigitsConcat(r, tail);
    FilterDigitsOfBlank(tail);
  }

  /** Both forms keep the same digits from any input: the '€' and the surrounding whitespace are not digits. */
  lemma DetailFormAgrees(input: string, previous: int)
    ensures DetailFormDigits(input) == NewFormDigits(input)
    ensures DetailUpdatedCents(input, previous) == UpdatedCents(input, previous)
  {
  }

  lemma DigitsHaveNoSeparators(s: string)
    requires AllDigits(s)
    ensures ',' !in s && '.' !in s
  {
    forall i | 0 <= i < |s| ensures s[i] != ',' && s[i] != '.' {
      assert IsDigit(s[i]);
    }
  }

  /** The digits kept from a displayed amount with one more character typed at the end. */
  lemma DisplayDigits(v: nat, tail: string)
    requires AllDigits(tail)
    ensures NewFormDigits(CentsText(v) + tail) == CentsDigits(v) + tail
  {
    CentsTextWithoutPoint(v);
    RemoveCharConcat(CentsText(v), tail, '.');
    DigitsHaveNoSeparators(tail);
    var noPoint := CentsDigits(v) + tail;
    assert AllDigits(noPoint);
    DigitsHaveNoSeparators(noPoint);
  }

  /** Typing the displayed amount back into the field gives the same amount. */
  lemma FormattedValueRoundTrip(v: int, previous: int)
    requires 0 <= v < MaxCents
    ensures UpdatedCents(FormattedValue(v), previous) == v
  {
    DisplayDigits(v, []);
    assert CentsText(v) + [] == CentsText(v);
    assert CentsDigits(v) + [] == CentsDigits(v);
    NatToDigitsLength(v / 100, MaxDigits - 2);
    MaxCentsIsPower();
  }

  /**
   * Typing one more digit after the displayed amount shifts it in as the new last cent digit while
   * the amount is below 10^7; at 10^7 and beyond the ninth digit is refused and the amount stays.
   */
  lemma AppendDigitToDisplay(v: int, d: nat)
    requires 0 <= v < MaxCents && d < 10
    ensures UpdatedCents(FormattedValue(v) + [DigitChar(d)], v) == if v < MaxCents / 10 then 10 * v + d else v
  {
    var c := DigitChar(d);
    DisplayDigits(v, [c]);
    DigitsValueAppend(CentsDigits(v), c);
    NatToDigitsLength(v / 100, MaxDigits - 3);
    MaxCentsIsPower();
  }

  /** `filter { it.contains(query, ignoreCase = true) }`. */
  function Containing(all: seq<string>, query: string): (r: seq<string>)
    ensures forall c :: multiset(r)[c] == if ContainsIgnoreCase(c, query) then multiset(all)[c] else 0
    ensures Subsequence(r, all)
  {
    if all == [] then []
    else
      assert all == [all[0]] + all[1..];
      if ContainsIgnoreCase(all[0], query) then [all[0]] + Containing(all[1..], query)
      else Containing(all[1..], query)
  }

  /** `a` is `b` with some entries left out, the rest in their order. */
  predicate Subsequence<T(==)>(a: seq<T>, b: seq<T>) {
    if a == [] then true
    else if b == [] then false
    else if a[0] == b[0] then Subsequence(a[1..], b[1..])
    else Subsequence(a, b[1..])
  }

  /**
   * `filteredCategories`: everything for a blank query; otherwise exactly the categories containing
   * the query ignoring case, each as often as listed, in list order.
   */
  function FilteredCategories(all: seq<string>, query: string): (r: seq<string>)
    ensures IsBlank(query) ==> r == all
    ensures !IsBlank(query) ==> forall c :: c in r <==> c in all && ContainsIgnoreCase(c, query)
    ensures !IsBlank(query) ==> forall c :: multiset(r)[c] == if ContainsIgnoreCase(c, query) then multiset(all)[c] else 0
    ensures Subsequence(r, all)
    ensures forall c :: multiset(r)[c] <= multiset(all)[c]
  {
    if IsBlank(query) then
      SubsequenceOfItself(all);
      all
    else Containing(all, query)
  }

  lemma {:induction false} SubsequenceOfItself<T>(s: seq<T>)
    ensures Subsequence(s, s)
  {
    if s != [] {
      SubsequenceOfItself(s[1..]);
    }
  }

  /** `showCreateNewOption`: the query is not blank and no suggestion equals it ignoring case. */
  predicate ShowCreateNewOption(all: seq<string>, query: string) {
    !IsBlank(query) && !exists c :: c in FilteredCategories(all, query) && EqualsIgnoreCase(c, query)
  }

  /**
   * Looking for an equal category only among the suggestions is the same as looking through the
   * whole list, since a category equal to the query contains it.
   */
  lemma CreateNewOverWholeList(all: seq<string>, query: string)
    ensures ShowCreateNewOption(all, query) <==> !IsBlank(query) && forall c :: c in all ==> !EqualsIgnoreCase(c, query)
  {
    if !IsBlank(query) {
      forall c | c in all && EqualsIgnoreCase(c, query) ensures c in FilteredCategories(all, query) {
        EqualsImpliesContains(c, query);
      }
    }
  }
}
