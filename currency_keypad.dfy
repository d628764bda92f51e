/**
 * The on-screen currency keypad of the new-transaction fragment: twelve buttons edit a display
 * text that always reads as an amount, "units.cents". Every digit or backspace strips the point,
 * edits the digit string and formats it again as a `Long` number of cents.
 */
module CurrencyKeypad {
  import opened Wrappers
  import opened Text

  /** The range of a Kotlin `Long`. */
  const MinLong: int := -0x8000_0000_0000_0000
  const MaxLong: int := 0x7fff_ffff_ffff_ffff

  /**
   * `String.toLongOrNull()`: an optional '-' or '+', then one or more digits whose signed value
   * is a `Long`; anything else is `None`.
   */
  function ParseLong(s: string): (r: Option<int>)
    ensures r.Some? ==> MinLong <= r.value <= MaxLong
  {
    if s == [] then None
    else
      var signed := s[0] == '-' || s[0] == '+';
      var digits := if signed then s[1..] else s;
      if digits == [] || !AllDigits(digits) then None
      else
        var magnitude: int := DigitsValue(digits);
        var n: int := if s[0] == '-' then -magnitude else magnitude;
        if MinLong <= n <= MaxLong then Some(n) else None
  }

  /** `%d` (and `Long.toString`): a minus sign for a negative number, then its digits without leading zeros. */
  function FormatD(n: int): (r: string)
    ensures r != [] && '.' !in r
  {
    NoPointInDigits(NatToDigits(if n < 0 then -n else n));
    if n < 0 then "-" + NatToDigits(-n) else NatToDigits(n)
  }

  /** Every `Long` is read back from its `%d` rendering. */
  lemma ParseFormatRoundTrip(n: int)
    requires MinLong <= n <= MaxLong
    ensures ParseLong(FormatD(n)) == Some(n)
  {
    if n < 0 {
      var s := FormatD(n);
      assert s[1..] == NatToDigits(-n);
    }
  }

  /** A digit string is read as its value when that fits a `Long`, and rejected otherwise. */
  lemma ParseDigits(s: string)
    requires s != [] && AllDigits(s)
    ensures ParseLong(s) == if DigitsValue(s) <= MaxLong then Some(DigitsValue(s)) else None
  {
    assert IsDigit(s[0]);
  }

  /** Only a sign and digits are accepted: in particular a text holding a '.' is rejected. */
  lemma ParseRejectsNonDigits(s: string)
    ensures ParseLong(s).Some? ==> forall i :: 0 < i < |s| ==> IsDigit(s[i])
    ensures ParseLong(s).Some? ==> '.' !in s
  {
    if ParseLong(s).Some? {
      if s[0] == '-' || s[0] == '+' {
        forall i | 0 < i < |s| ensures IsDigit(s[i]) {
          assert s[i] == s[1..][i - 1];
        }
      } else {
        assert IsDigit(s[0]);
      }
    }
  }

  /** Kotlin's `/` on a positive divisor: the quotient rounded toward zero. */
  function TruncDiv(a: int, b: int): (q: int)
    requires b > 0
    ensures a >= 0 ==> 0 <= b * q <= a < b * q + b
    ensures a < 0 ==> b * q - b < a <= b * q <= 0
  {
    if a >= 0 then
      EuclidOnNatural(a, b);
      a / b
    else
      EuclidOnNatural(-a, b);
      var p := (-a) / b;
      assert b * -p == -(b * p);
      -p
  }

  /** Euclid's division of a natural number by a positive one. */
  lemma EuclidOnNatural(a: int, b: int)
    requires a >= 0 && b > 0
    ensures a == b * (a / b) + a % b && 0 <= a % b < b
    ensures 0 <= b * (a / b) <= a
  {
    var q := a / b;
    assert q >= 0;
    assert b * q >= 0;
  }

  /** Kotlin's `%` on a positive divisor: the remainder of `TruncDiv`, carrying the dividend's sign. */
  function TruncMod(a: int, b: int): (m: int)
    requires b > 0
    ensures a == b * TruncDiv(a, b) + m
    ensures a >= 0 ==> 0 <= m < b
    ensures a < 0 ==> -b < m <= 0
  {
    if a >= 0 then a % b else -((-a) % b)
  }

  /**
   * `%02d` of a number in (-100, 100): two digits with a leading zero for a non-negative one;
   * a negative one already has width two or more, so it is its `%d` rendering.
   */
  function Format02(n: int): (r: string)
    requires -100 < n < 100
    ensures |r| >= 2 && '.' !in r
    ensures n >= 0 ==> AllDigits(r) && DigitsValue(r) == n
  {
    if n >= 0 then
      NoPointInDigits(Pad2(n));
      Pad2(n)
    else FormatD(n)
  }

  /** `String.format("%d.%02d", n / 100, n % 100)`. */
  function Rendered(n: int): string {
    FormatD(TruncDiv(n, 100)) + "." + Format02(TruncMod(n, 100))
  }

  /** `formatCurrency`: "0.00" for an empty text; otherwise the text read as a `Long`, 0 when it is not one, rendered. */
  function FormatCurrency(value: string): string {
    if value == [] then "0.00" else Rendered(ParseLong(value).GetOr(0))
  }

  /** "0.00" is the rendering of the amount 0. */
  lemma ZeroText()
    ensures CentsText(0) == "0.00"
  {
    assert NatToDigits(0) == "0";
    assert Pad2(0) == "00";
  }

  /** A non-negative number of cents renders as its amount text. */
  lemma RenderedNonNegative(n: int)
    requires n >= 0
    ensures Rendered(n) == CentsText(n)
  {
    assert TruncDiv(n, 100) == n / 100;
    assert TruncMod(n, 100) == n % 100;
  }

  /** The empty text, a text that is not a number and one that overflows a `Long` all give "0.00". */
  lemma FormatCurrencyRejects(value: string)
    requires ParseLong(value).None?
    ensures FormatCurrency(value) == "0.00"
  {
    if value != [] {
      RenderedNonNegative(0);
      ZeroText();
    }
  }

  /** A digit string of value `n` gives the amount text of `n` cents while `n` is a `Long`, else "0.00". */
  lemma FormatCurrencyDigits(s: string)
    requires s != [] && AllDigits(s)
    ensures FormatCurrency(s) == if DigitsValue(s) <= MaxLong then CentsText(DigitsValue(s)) else "0.00"
  {
    ParseDigits(s);
    RenderedNonNegative(DigitsValue(s));
    RenderedNonNegative(0);
    ZeroText();
  }

  /** An amount text: digits, exactly one '.', then exactly two digits. */
  predicate IsAmountText(r: string) {
    && |r| >= 4
    && AllDigits(r[..|r| - 3]) && r[|r| - 3] == '.'
    && IsDigit(r[|r| - 2]) && IsDigit(r[|r| - 1])
  }

  lemma CentsTextIsAmountText(n: nat)
    ensures IsAmountText(CentsText(n))
  {
  }

  /**
   * The result always holds exactly one '.'; when the text does not read as a negative number
   * it is an amount text of the number read.
   */
  lemma FormatCurrencyShape(value: string)
    ensures multiset(FormatCurrency(value))['.'] == 1
    ensures ParseLong(value).GetOr(0) >= 0 ==>
      IsAmountText(FormatCurrency(value)) && FormatCurrency(value) == CentsText(ParseLong(value).GetOr(0))
  {
    OnePoint(value);
    if ParseLong(value).GetOr(0) >= 0 {
      NonNegativeShape(value);
    }
  }

  lemma OnePoint(value: string)
    ensures multiset(FormatCurrency(value))['.'] == 1
  {
    if value == [] {
      assert FormatCurrency(value) == "0.00";
    } else {
      var n := ParseLong(value).GetOr(0);
      var front := FormatD(TruncDiv(n, 100));
      var back := Format02(TruncMod(n, 100));
      assert FormatCurrency(value) == front + "." + back;
      assert multiset(front + "." + back) == multiset(front) + multiset(".") + multiset(back);
    }
  }

  lemma NonNegativeShape(value: string)
    requires ParseLong(value).GetOr(0) >= 0
    ensures FormatCurrency(value) == CentsText(ParseLong(value).GetOr(0))
    ensures IsAmountText(FormatCurrency(value))
  {
    if value == [] {
      ZeroText();
    } else {
      RenderedNonNegative(ParseLong(value).GetOr(0));
    }
  }

  /** What the digit and backspace handlers do with the displayed text before editing it. */
  function Reformat(display: string): string {
    FormatCurrency(RemoveChar(display, '.'))
  }

  /** Stripping the point from an amount text and formatting again gives the same text. */
  lemma ReformatCentsText(n: nat)
    requires n <= MaxLong
    ensures Reformat(CentsText(n)) == CentsText(n)
  {
    CentsTextWithoutPoint(n);
    FormatCurrencyDigits(CentsDigits(n));
  }

  /** Reformatting is idempotent on everything that does not read as a negative number. */
  lemma ReformatIdempotent(value: string)
    requires ParseLong(value).GetOr(0) >= 0
    ensures Reformat(FormatCurrency(value)) == FormatCurrency(value)
  {
    FormatCurrencyShape(value);
    ReformatCentsText(ParseLong(value).GetOr(0));
  }

  /** A negative number breaks the shape: "-5" gives "0.-5", which reformats to "0.00". */
  lemma NegativeBreaksShape()
    ensures FormatCurrency("-5") == "0.-5"
    ensures !IsAmountText(FormatCurrency("-5"))
    ensures Reformat(FormatCurrency("-5")) == "0.00"
  {
    assert ParseLong("-5") == Some(-5) by {
      assert "-5"[1..] == "5";
      assert DigitsValue("5") == 5 by {
        assert "5"[..0] == [];
      }
    }
    assert TruncDiv(-5, 100) == 0;
    assert TruncMod(-5, 100) == -5;
    assert FormatD(0) == "0";
    assert FormatD(-5) == "-5";
    var shown := "0.-5";
    assert RemoveChar(shown, '.') == "0-5" by {
      assert shown[1..] == ".-5";
      assert shown[1..][1..] == "-5";
    }
    assert ParseLong("0-5") == None by {
      assert "0-5"[1] == '-';
    }
    FormatCurrencyRejects("0-5");
  }

  /** The keypad's rows of button labels. */
  const Buttons: seq<seq<string>> := [["1", "2", "3"], ["4", "5", "6"], ["7", "8", "9"], ["C", "0", "⌫"]]

  const Labels: seq<string> := Buttons[0] + Buttons[1] + Buttons[2] + Buttons[3]

  /** The ten digit buttons carry the ten digits, and the other two are "C" and "⌫". */
  lemma LabelsAre(b: string)
    ensures b in Labels <==> b == "C" || b == "⌫" || (|b| == 1 && IsDigit(b[0]))
  {
    if |b| == 1 && IsDigit(b[0]) {
      assert b == [b[0]];
    }
  }

  /** The `onClick` of the button labelled `buttonText` with `currentValue` displayed. */
  function OnClick(currentValue: string, buttonText: string): string {
    if buttonText == "C" then "0.00"
    else if buttonText == "⌫" then
      var current := RemoveChar(currentValue, '.');
      if |current| > 1 then FormatCurrency(current[..|current| - 1]) else "0.00"
    else
      FormatCurrency(RemoveChar(currentValue, '.') + buttonText)
  }

  /** "C" shows the amount 0 whatever is displayed, and so does "⌫" when at most one character is left. */
  lemma ResetsToZero(currentValue: string)
    ensures OnClick(currentValue, "C") == CentsText(0)
    ensures |RemoveChar(currentValue, '.')| <= 1 ==> OnClick(currentValue, "⌫") == CentsText(0)
  {
    ZeroText();
  }

  /** With more than one character left once the point is stripped, "⌫" drops the last one and formats. */
  lemma BackspaceClick(currentValue: string)
    requires |RemoveChar(currentValue, '.')| > 1
    ensures var current := RemoveChar(currentValue, '.');
      OnClick(currentValue, "⌫") == FormatCurrency(current[..|current| - 1])
  {
    assert "⌫" != "C" by {
      assert "⌫"[0] != "C"[0];
    }
  }

  /** The digits of `n` without their last one are the digits of `m`, `n / 10`. */
  lemma DropLastDigit(digits: string, n: nat, m: nat)
    requires digits != [] && AllDigits(digits) && DigitsValue(digits) == n && m == n / 10
    ensures AllDigits(digits[..|digits| - 1]) && DigitsValue(digits[..|digits| - 1]) == m
  {
  }

  /**
   * On the display of `n` cents, "⌫" shows `m`, that is `n / 10`, cents: the last digit is
   * dropped.
   */
  lemma BackspaceOnDisplay(n: nat, m: nat)
    requires n <= MaxLong && m == n / 10
    ensures OnClick(CentsText(n), "⌫") == CentsText(m)
  {
    CentsTextWithoutPoint(n);
    var current := CentsDigits(n);
    assert "⌫" != "C" by {
      assert "⌫"[0] != "C"[0];
    }
    BackspaceClick(CentsText(n));
    DropLastDigit(current, n, m);
    FormatCurrencyDigits(current[..|current| - 1]);
  }

  /** A digit button appends its digit to the displayed text without the point, then formats. */
  lemma DigitClick(currentValue: string, d: nat)
    requires d < 10
    ensures OnClick(currentValue, [DigitChar(d)]) == FormatCurrency(RemoveChar(currentValue, '.') + [DigitChar(d)])
  {
    var button := [DigitChar(d)];
    assert button != "C" && button != "⌫" by {
      assert button[0] != "C"[0] && button[0] != "⌫"[0];
    }
  }

  /** Digit `d` after the digits of `n` gives the digits of `m`, `10n + d`. */
  lemma AppendDigit(digits: string, n: nat, d: nat, m: nat)
    requires AllDigits(digits) && DigitsValue(digits) == n && d < 10 && m == 10 * n + d
    ensures AllDigits(digits + [DigitChar(d)]) && DigitsValue(digits + [DigitChar(d)]) == m
  {
    DigitsValueAppend(digits, DigitChar(d));
  }

  /**
   * On the display of `n` cents, digit `d` shows `m`, that is `10n + d`, cents while `m` is a
   * `Long`, and "0.00" beyond.
   */
  lemma DigitOnDisplay(n: nat, d: nat, m: nat)
    requires d < 10 && m == 10 * n + d
    ensures OnClick(CentsText(n), [DigitChar(d)]) == if m <= MaxLong then CentsText(m) else "0.00"
  {
    CentsTextWithoutPoint(n);
    DigitClick(CentsText(n), d);
    AppendDigit(CentsDigits(n), n, d, m);
    FormatCurrencyDigits(CentsDigits(n) + [DigitChar(d)]);
  }

  /** The display after pressing `presses` in order, starting from the initial "0.00". */
  function Typed(presses: seq<string>): string {
    if presses == [] then "0.00"
    else OnClick(Typed(presses[..|presses| - 1]), presses[|presses| - 1])
  }

  /** The amount in cents after one press, computed on numbers: the reference for the display. */
  function Step(n: nat, button: string): (r: nat)
    requires button in Labels
    ensures n <= MaxLong ==> r <= MaxLong
  {
    LabelsAre(button);
    if button == "C" then 0
    else if button == "⌫" then n / 10
    else if 10 * n + DigitValue(button[0]) <= MaxLong then 10 * n + DigitValue(button[0])
    else 0
  }

  /** The reference amount after `presses`: it never leaves the `Long` range. */
  function KeypadValue(presses: seq<string>): (r: nat)
    requires forall i :: 0 <= i < |presses| ==> presses[i] in Labels
    ensures r <= MaxLong
  {
    if presses == [] then 0
    else Step(KeypadValue(presses[..|presses| - 1]), presses[|presses| - 1])
  }

  /**
   * Whatever the buttons pressed, the display is the amount text of the reference amount, and
   * that amount is a `Long`.
   */
  lemma {:induction false} TypedShowsValue(presses: seq<string>)
    requires forall i :: 0 <= i < |presses| ==> presses[i] in Labels
    ensures KeypadValue(presses) <= MaxLong
    ensures Typed(presses) == CentsText(KeypadValue(presses))
  {
    if presses == [] {
      ZeroText();
    } else {
      var before := presses[..|presses| - 1];
      var b := presses[|presses| - 1];
      TypedShowsValue(before);
      StepOnDisplay(KeypadValue(before), b);
    }
  }

  /** One press on the display of a `Long` amount shows the amount `Step` computes, again a `Long`. */
  lemma StepOnDisplay(n: nat, b: string)
    requires n <= MaxLong && b in Labels
    ensures Step(n, b) <= MaxLong
    ensures OnClick(CentsText(n), b) == CentsText(Step(n, b))
  {
    LabelsAre(b);
    if b == "C" {
      ClearStep(n);
    } else if b == "⌫" {
      BackspaceStep(n);
    } else {
      var d := DigitValue(b[0]);
      assert b == [DigitChar(d)];
      DigitStep(n, d, Step(n, b));
    }
  }

  /** The clear case of `StepOnDisplay`. */
  lemma ClearStep(n: nat)
    ensures "C" in Labels && Step(n, "C") == 0
    ensures OnClick(CentsText(n), "C") == CentsText(Step(n, "C"))
  {
    ResetsToZero(CentsText(n));
  }

  /** The backspace case of `StepOnDisplay`. */
  lemma BackspaceStep(n: nat)
    requires n <= MaxLong
    ensures "⌫" in Labels && Step(n, "⌫") == n / 10
    ensures OnClick(CentsText(n), "⌫") == CentsText(Step(n, "⌫"))
  {
    assert "⌫" != "C" by {
      assert "⌫"[0] != "C"[0];
    }
    var m := Step(n, "⌫");
    BackspaceOnDisplay(n, m);
  }

  lemma DigitLabel(d: nat)
    requires d < 10
    ensures [DigitChar(d)] != "C" && [DigitChar(d)] != "⌫" && DigitValue([DigitChar(d)][0]) == d
  {
    var b := [DigitChar(d)];
    assert b[0] != "C"[0] && b[0] != "⌫"[0];
  }

  /** The digit case of `StepOnDisplay`. */
  lemma DigitStep(n: nat, d: nat, m: nat)
    requires d < 10 && [DigitChar(d)] in Labels && m == Step(n, [DigitChar(d)])
    ensures m <= MaxLong
    ensures OnClick(CentsText(n), [DigitChar(d)]) == CentsText(m)
  {
    DigitLabel(d);
    var shifted := 10 * n + d;
    DigitOnDisplay(n, d, shifted);
    if shifted <= MaxLong {
      assert m == shifted;
    } else {
      assert m == 0;
      ZeroText();
    }
  }

  /** Every display the keypad can reach is an amount text that reformats to itself. */
  lemma TypedIsStable(presses: seq<string>)
    requires forall i :: 0 <= i < |presses| ==> presses[i] in Labels
    ensures IsAmountText(Typed(presses))
    ensures Reformat(Typed(presses)) == Typed(presses)
  {
    TypedShowsValue(presses);
    CentsTextIsAmountText(KeypadValue(presses));
    ReformatCentsText(KeypadValue(presses));
  }
}
