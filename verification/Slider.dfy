/** The seek bar of the Android application: the step that is derived from the text of a
    value, and the conversions between values and positions, in exact arithmetic. */
module Slider {
  import opened Options

  /** Java's cast to `int`, which cuts towards zero. */
  function Truncated(x: real): int {
    if x >= 0.0 then x.Floor else -(-x).Floor
  }

  function Pow10(n: nat): (r: real)
    ensures r >= 1.0
  {
    if n == 0 then 1.0 else 10.0 * Pow10(n - 1)
  }

  // --------------------------------------------------------- decimal text

  /** The first position of the character, or -1. */
  function IndexOf(s: string, c: char): (r: int)
    ensures -1 <= r < |s|
    ensures r >= 0 ==> s[r] == c && c !in s[..r]
    ensures r == -1 ==> c !in s
  {
    if s == "" then -1
    else if s[0] == c then 0
    else
      var rest := IndexOf(s[1..], c);
      if rest == -1 then -1
      else
        assert s[..rest + 1] == [s[0]] + s[1..][..rest];
        rest + 1
  }

  lemma {:induction false} FirstIndex(s: string, c: char, k: nat)
    requires k < |s| && s[k] == c && forall i :: 0 <= i < k ==> s[i] != c
    ensures IndexOf(s, c) == k
  {
    if k > 0 {
      FirstIndex(s[1..], c, k - 1);
    }
  }

  function Digit(c: char): real {
    (c as int - '0' as int) as real
  }

  function Whole(digits: string): real {
    if digits == "" then 0.0 else 10.0 * Whole(digits[..|digits| - 1]) + Digit(digits[|digits| - 1])
  }

  function Fraction(digits: string): real {
    if digits == "" then 0.0 else (Digit(digits[0]) + Fraction(digits[1..])) / 10.0
  }

  /** The number that digits with at most one point denote. */
  function Number(s: string): real {
    var dot := IndexOf(s, '.');
    if dot == -1 then Whole(s) else Whole(s[..dot]) + Fraction(s[dot + 1..])
  }

  /** The digits printed behind the point: as many as the step has. */
  function Decimals(step: string): nat {
    var dot := IndexOf(step, '.');
    if dot != -1 then |step| - dot - 1 else 0
  }

  function Zeros(n: nat): (r: string)
    ensures |r| == n && forall i :: 0 <= i < n ==> r[i] == '0'
  {
    if n == 0 then "" else "0" + Zeros(n - 1)
  }

  // -------------------------------------------------------------- the step

  /** The position of the point as the loop uses it: one less if a minus sign occurs. */
  function DotOf(value: string): int {
    IndexOf(value, '.') - if '-' in value then 1 else 0
  }

  function StepZeros(value: string): nat {
    var dot := DotOf(value);
    if dot < |value| - dot then |value| - dot - dot else 0
  }

  function StepFor(value: string): string {
    "0." + Zeros(StepZeros(value)) + "1"
  }

  /** Without a text the step is a hundredth. */
  function StepOf(value: Option<string>): string {
    if value.Some? then StepFor(value.value) else "0.01"
  }

  function DecimalsOf(value: Option<string>): nat {
    if value.Some? then StepZeros(value.value) + 1 else 2
  }

  lemma ZerosOfSnoc(n: nat)
    ensures Zeros(n) + "0" == Zeros(n + 1)
  {
  }

  method StepString(value: string) returns (step: string)
    ensures step == StepFor(value)
  {
    var dot := IndexOf(value, '.');
    if '-' in value {
      dot := dot - 1;
    }
    step := "0.";
    var i := dot;
    while i < |value| - dot
      invariant dot <= i && (i <= |value| - dot || i == dot)
      invariant step == "0." + Zeros(i - dot)
    {
      ZerosOfSnoc(i - dot);
      assert "0." + Zeros(i - dot) + "0" == "0." + (Zeros(i - dot) + "0");
      step := step + "0";
      i := i + 1;
    }
    step := step + "1";
  }

  lemma {:induction false} FractionOfStep(n: nat)
    ensures Fraction(Zeros(n) + "1") * Pow10(n + 1) == 1.0
  {
    var s := Zeros(n) + "1";
    if n == 0 {
      assert s == "1" && s[1..] == "";
      assert Fraction(s) == 0.1;
      assert Pow10(1) == 10.0 * Pow10(0);
    } else {
      FractionOfStep(n - 1);
      assert s[1..] == Zeros(n - 1) + "1";
      var f, p := Fraction(s[1..]), Pow10(n);
      assert Fraction(s) == f / 10.0 && Pow10(n + 1) == 10.0 * p;
      assert (f / 10.0) * (10.0 * p) == f * p;
    }
  }

  lemma Inverse(x: real, p: real)
    requires x * p == 1.0
    ensures x != 0.0 && 1.0 / x == p
  {
    assert (1.0 / x) * x == 1.0;
    assert (1.0 / x - p) * x == 0.0;
  }

  /** The step is a negative power of ten, its inverse the scale, and as many digits are
      printed as the step has. */
  lemma StepMeaning(value: Option<string>)
    ensures var step := StepOf(value); var d := DecimalsOf(value);
            Decimals(step) == d && Number(step) != 0.0 && 1.0 / Number(step) == Pow10(d)
  {
    var step := StepOf(value);
    var n := DecimalsOf(value) - 1;
    if value.None? {
      assert Zeros(1) == "0" + Zeros(0) == "0";
    }
    assert step == "0." + Zeros(n) + "1";
    assert step[0] == '0' && step[1] == '.';
    FirstIndex(step, '.', 1);
    assert step[..1] == "0" && step[2..] == Zeros(n) + "1";
    assert Whole("0") == 0.0 by {
      assert "0"[..0] == "";
    }
    FractionOfStep(n);
    Inverse(Number(step), Pow10(n + 1));
  }

  predicate AllDigits(s: string) {
    forall i :: 0 <= i < |s| ==> '0' <= s[i] <= '9'
  }

  /** The text of a number: a sign if negative, the whole part, a point, the fraction. */
  function Text(negative: bool, whole: string, fraction: string): string {
    (if negative then "-" else "") + whole + "." + fraction
  }

  lemma DotOfText(negative: bool, whole: string, fraction: string)
    requires AllDigits(whole) && AllDigits(fraction)
    ensures DotOf(Text(negative, whole, fraction)) == |whole|
  {
    var value := Text(negative, whole, fraction);
    var sign := if negative then "-" else "";
    var dot := |sign| + |whole|;
    assert value == sign + whole + "." + fraction;
    assert value[dot] == '.';
    assert forall i :: 0 <= i < dot ==> value[i] != '.';
    assert forall i :: 0 <= i < |value| && value[i] == '-' ==> i == 0 && negative;
    assert negative ==> value[0] == '-';
    FirstIndex(value, '.', dot);
  }

  /** The loop gives at least as many decimals as the value has exactly when the value has at
      most one, or its whole part is short: two digits, or three behind a minus sign. */
  lemma StepKeepsFractionIff(negative: bool, whole: string, fraction: string)
    requires AllDigits(whole) && AllDigits(fraction)
    ensures |fraction| <= Decimals(StepFor(Text(negative, whole, fraction))) <==>
            |fraction| <= 1 || |whole| <= if negative then 3 else 2
  {
    var value := Text(negative, whole, fraction);
    DotOfText(negative, whole, fraction);
    StepMeaning(Some(value));
  }

  /** A text without a point: the loop counts from one place before it, or two behind a minus
      sign, so the step gets three or five decimals more than there are characters. */
  lemma StepOfWholeText(negative: bool, whole: string)
    requires AllDigits(whole)
    ensures var value := (if negative then "-" else "") + whole;
            Decimals(StepFor(value)) == |value| + if negative then 5 else 3
  {
    var value := (if negative then "-" else "") + whole;
    assert forall i :: 0 <= i < |value| ==> value[i] != '.';
    assert negative ==> value[0] == '-';
    StepMeaning(Some(value));
  }

  // ------------------------------------------------------------ conversions

  function ToPosition(value: real, shift: real, scale: real): int {
    Truncated((value - shift) * scale)
  }

  function ToValue(position: int, shift: real, scale: real): real
    requires scale != 0.0
  {
    position as real / scale + shift
  }

  lemma DivTimes(x: real, s: real)
    requires s != 0.0
    ensures x / s * s == x && x * s / s == x
  {
  }

  /** A position survives the way through its value. */
  lemma PositionRoundTrip(position: int, shift: real, scale: real)
    requires scale > 0.0
    ensures ToPosition(ToValue(position, shift, scale), shift, scale) == position
  {
    DivTimes(position as real, scale);
    assert ToValue(position, shift, scale) - shift == position as real / scale;
    assert Truncated(position as real) == position;
  }

  lemma DivLess(x: real, y: real, s: real)
    requires s > 0.0 && x < y
    ensures x / s < y / s
  {
    DivTimes(x, s);
    DivTimes(y, s);
    if x / s >= y / s {
      MulLeq(y / s, x / s, s);
    }
  }

  lemma MulLeq(x: real, y: real, s: real)
    requires s >= 0.0 && x <= y
    ensures x * s <= y * s
  {
    assert (y - x) * s >= 0.0;
  }

  /** A value moves by less than one step. */
  lemma ValueLosesLessThanAStep(value: real, shift: real, scale: real)
    requires scale > 0.0
    ensures var back := ToValue(ToPosition(value, shift, scale), shift, scale);
            -(1.0 / scale) < back - value < 1.0 / scale
  {
    var x := (value - shift) * scale;
    var k := Truncated(x) as real;
    assert x - 1.0 < k < x + 1.0;
    DivLess(x - 1.0, k, scale);
    DivLess(k, x + 1.0, scale);
    DivTimes(value - shift, scale);
    DivAdd(x, 1.0, scale);
    DivAdd(x, -1.0, scale);
    DivAdd(1.0, -1.0, scale);
  }

  lemma DivAdd(x: real, y: real, s: real)
    requires s != 0.0
    ensures (x + y) / s == x / s + y / s
  {
  }

  predicate OnGrid(value: real, shift: real, scale: real) {
    var x := (value - shift) * scale;
    x == x.Floor as real
  }

  /** It never moves up exactly when the value is not below the shift, or is on the grid. */
  lemma NeverAboveIff(value: real, shift: real, scale: real)
    requires scale > 0.0
    ensures ToValue(ToPosition(value, shift, scale), shift, scale) <= value <==>
            value >= shift || OnGrid(value, shift, scale)
  {
    var x := (value - shift) * scale;
    var k := Truncated(x) as real;
    DivTimes(value - shift, scale);
    assert x / scale == value - shift;
    SameOrder(k, x, scale);
    assert k / scale + shift <= value <==> k <= x;
    TruncatedBelow(x);
    SameSign(value - shift, scale);
  }

  lemma SameOrder(x: real, y: real, s: real)
    requires s > 0.0
    ensures x / s <= y / s <==> x <= y
  {
    if x <= y {
      DivLeq(x, y, s);
    } else {
      DivLess(y, x, s);
    }
  }

  lemma TruncatedBelow(x: real)
    ensures Truncated(x) as real <= x <==> x >= 0.0 || x == x.Floor as real
  {
    TruncatedOfWhole(x);
  }

  lemma SameSign(x: real, s: real)
    requires s > 0.0
    ensures x * s >= 0.0 <==> x >= 0.0
  {
    if x >= 0.0 {
      MulLeq(0.0, x, s);
    } else {
      MulLess(x, s);
    }
  }

  lemma MulLess(x: real, s: real)
    requires s > 0.0 && x < 0.0
    ensures x * s < 0.0
  {
  }

  lemma DivLeq(x: real, y: real, s: real)
    requires s > 0.0 && x <= y
    ensures x / s <= y / s
  {
    if x < y {
      DivLess(x, y, s);
    }
  }

  /** A value is given back unchanged exactly when it is on the grid. */
  lemma KeptIffOnGrid(value: real, shift: real, scale: real)
    requires scale > 0.0
    ensures ToValue(ToPosition(value, shift, scale), shift, scale) == value <==> OnGrid(value, shift, scale)
  {
    var x := (value - shift) * scale;
    var k := Truncated(x) as real;
    DivTimes(value - shift, scale);
    DivTimes(k, scale);
    assert x / scale == value - shift;
    TruncatedOfWhole(x);
    if k / scale + shift == value {
      assert k / scale == x / scale;
    }
  }

  lemma FloorOfWhole(x: real, w: int)
    ensures x == w as real ==> x.Floor == w
  {
  }

  lemma TruncatedOfWhole(x: real)
    ensures Truncated(x) as real == x <==> x == x.Floor as real
  {
    if x < 0.0 {
      FloorOfWhole(x, -(-x).Floor);
      FloorOfWhole(-x, -x.Floor);
    }
  }

  lemma TruncatedIsMonotone(x: real, y: real)
    requires x <= y
    ensures Truncated(x) <= Truncated(y)
  {
    var i, j := Truncated(x), Truncated(y);
    if x < 0.0 && y < 0.0 {
      assert (-y).Floor <= (-x).Floor;
    }
  }

  lemma {:induction false} Pow10Adds(a: nat, b: nat)
    ensures Pow10(a + b) == Pow10(a) * Pow10(b)
  {
    if a > 0 {
      Pow10Adds(a - 1, b);
      Regroup(Pow10(a - 1), Pow10(b));
    }
  }

  lemma Regroup(x: real, y: real)
    ensures 10.0 * (x * y) == (10.0 * x) * y
  {
  }

  lemma {:induction false} Pow10IsWhole(n: nat) returns (p: nat)
    ensures Pow10(n) == p as real
  {
    if n == 0 {
      p := 1;
    } else {
      var q := Pow10IsWhole(n - 1);
      p := 10 * q;
    }
  }

  lemma {:induction false} ProductIsWhole(a: int, p: nat)
    ensures a as real * p as real == (a * p) as real
  {
    if p > 0 {
      ProductIsWhole(a, p - 1);
      assert a as real * p as real == a as real * (p - 1) as real + a as real;
      assert a * p == a * (p - 1) + a;
    }
  }

  lemma ScaledDifference(x: real, y: real, s: real, q: real)
    ensures (x - y) * (s * q) == (x * s - y * s) * q
  {
    var d := x - y;
    assert d * s == x * s - y * s;
    assert d * (s * q) == d * s * q;
  }

  /** The value has at most `f` decimals: it is `m` units of the `f`-th place. */
  ghost predicate HasDecimals(value: real, f: nat, m: int) {
    value * Pow10(f) == m as real
  }

  /** A higher power of ten is a whole multiple of a lower one. */
  lemma Pow10Divides(f: nat, d: nat) returns (p: nat)
    requires f <= d
    ensures Pow10(d) == Pow10(f) * p as real
  {
    Pow10Adds(f, d - f);
    p := Pow10IsWhole(d - f);
  }

  /** Numbers with at most as many decimals as the step lie on the grid. */
  lemma DecimalsAreOnGrid(value: real, shift: real, m: int, n: int, f: nat, d: nat)
    requires f <= d && HasDecimals(value, f, m) && HasDecimals(shift, f, n)
    ensures OnGrid(value, shift, Pow10(d))
  {
    var p := Pow10Divides(f, d);
    var s, scale := Pow10(f), Pow10(d);
    ScaledToGrid(value, shift, s, scale, m, n, p);
  }

  lemma ScaledToGrid(value: real, shift: real, s: real, scale: real, m: int, n: int, p: nat)
    requires value * s == m as real && shift * s == n as real && scale == s * p as real
    ensures OnGrid(value, shift, scale)
  {
    ScaledDifference(value, shift, s, p as real);
    ProductIsWhole(m - n, p);
    Equate(value * s - shift * s, (m - n) as real, p as real);
    WholeIsOnGrid(value, shift, scale, (m - n) * p);
  }

  lemma Equate(x: real, y: real, q: real)
    requires x == y
    ensures x * q == y * q
  {
  }

  lemma WholeIsOnGrid(value: real, shift: real, scale: real, w: int)
    requires (value - shift) * scale == w as real
    ensures OnGrid(value, shift, scale)
  {
  }

  // ------------------------------------------------ the number of a text

  /** A number in plain decimal notation: a sign if negative, digits, at most one point. */
  predicate IsDecimal(text: string) {
    var digits := Unsigned(text);
    var dot := IndexOf(digits, '.');
    if dot == -1 then digits != "" && AllDigits(digits)
    else |digits| > 1 && AllDigits(digits[..dot]) && AllDigits(digits[dot + 1..])
  }

  predicate Minus(text: string) {
    text != "" && text[0] == '-'
  }

  function Unsigned(text: string): string {
    if Minus(text) then text[1..] else text
  }

  function Signed(text: string): real {
    if Minus(text) then -Number(Unsigned(text)) else Number(Unsigned(text))
  }

  /** `Double.valueOf`, which throws for a text that is no number. */
  function ValueOf(text: string): Option<real> {
    if IsDecimal(text) then Some(Signed(text)) else None
  }

  lemma {:induction false} WholeIsWhole(digits: string) returns (w: int)
    ensures Whole(digits) == w as real
  {
    if digits == "" {
      w := 0;
    } else {
      var front := WholeIsWhole(digits[..|digits| - 1]);
      w := 10 * front + (digits[|digits| - 1] as int - '0' as int);
    }
  }

  lemma UnitsOfDigit(d: int, p: nat, f: real, s: real, u: int)
    requires s == p as real && f * s == u as real
    ensures (d as real + f) / 10.0 * (10.0 * s) == (d * p + u) as real
  {
    ProductIsWhole(d, p);
    assert (d as real + f) / 10.0 * (10.0 * s) == d as real * s + f * s;
  }

  /** The fraction is a whole number of units of its last place. */
  lemma {:induction false} FractionIsWhole(digits: string) returns (u: int)
    ensures HasDecimals(Fraction(digits), |digits|, u)
  {
    if digits == "" {
      u := 0;
    } else {
      var rest := FractionIsWhole(digits[1..]);
      var p := Pow10IsWhole(|digits| - 1);
      var d := digits[0] as int - '0' as int;
      UnitsOfDigit(d, p, Fraction(digits[1..]), Pow10(|digits| - 1), rest);
      u := d * p + rest;
    }
  }

  lemma SumOfUnits(w: int, p: nat, f: real, s: real, u: int)
    requires s == p as real && f * s == u as real
    ensures (w as real + f) * s == (w * p + u) as real
    ensures (-(w as real + f)) * s == (-(w * p + u)) as real
  {
    ProductIsWhole(w, p);
    assert (w as real + f) * s == w as real * s + f * s;
    assert (-(w as real + f)) * s == -((w as real + f) * s);
  }

  lemma PartsOfText(whole: string, fraction: string)
    requires AllDigits(whole)
    ensures var digits := whole + "." + fraction;
            IndexOf(digits, '.') == |whole| && digits[..|whole|] == whole && digits[|whole| + 1..] == fraction
  {
    FirstIndex(whole + "." + fraction, '.', |whole|);
  }

  lemma SignOfText(negative: bool, whole: string, fraction: string)
    requires AllDigits(whole)
    ensures Minus(Text(negative, whole, fraction)) == negative
    ensures Unsigned(Text(negative, whole, fraction)) == whole + "." + fraction
  {
    var text, digits := Text(negative, whole, fraction), whole + "." + fraction;
    if negative {
      assert text[1..] == digits;
    } else {
      assert text == digits && text[0] != '-';
    }
  }

  lemma SignedOfText(negative: bool, whole: string, fraction: string)
    requires AllDigits(whole)
    ensures var x := Whole(whole) + Fraction(fraction);
            Signed(Text(negative, whole, fraction)) == if negative then -x else x
  {
    SignOfText(negative, whole, fraction);
    PartsOfText(whole, fraction);
  }

  lemma UnitsOfSum(negative: bool, x: real, w: int, f: real, k: nat, u: int) returns (m: int)
    requires x == (if negative then -(w as real + f) else w as real + f) && HasDecimals(f, k, u)
    ensures HasDecimals(x, k, m)
  {
    var p := Pow10IsWhole(k);
    SumOfUnits(w, p, f, Pow10(k), u);
    m := if negative then -(w * p + u) else w * p + u;
  }

  /** The number that a text denotes has as many decimals as are written in it. */
  lemma SignedHasDecimals(negative: bool, whole: string, fraction: string) returns (m: int)
    requires AllDigits(whole) && AllDigits(fraction)
    ensures HasDecimals(Signed(Text(negative, whole, fraction)), |fraction|, m)
  {
    SignedOfText(negative, whole, fraction);
    var w := WholeIsWhole(whole);
    var u := FractionIsWhole(fraction);
    m := UnitsOfSum(negative, Signed(Text(negative, whole, fraction)), w, Fraction(fraction), |fraction|, u);
  }

  lemma TextIsDecimal(negative: bool, whole: string, fraction: string)
    requires AllDigits(whole) && AllDigits(fraction) && whole + fraction != ""
    ensures ValueOf(Text(negative, whole, fraction)) == Some(Signed(Text(negative, whole, fraction)))
  {
    SignOfText(negative, whole, fraction);
    PartsOfText(whole, fraction);
  }

  /** From the text of a value to the bar and back, with a least value of no more decimals
      than the text: nothing is lost under the condition above. */
  lemma TextIsKept(negative: bool, whole: string, fraction: string, shift: real, n: int)
    requires AllDigits(whole) && AllDigits(fraction)
    requires |fraction| <= 1 || |whole| <= if negative then 3 else 2
    requires HasDecimals(shift, |fraction|, n)
    ensures var text := Text(negative, whole, fraction);
            var scale := Pow10(DecimalsOf(Some(text)));
            ToValue(ToPosition(Signed(text), shift, scale), shift, scale) == Signed(text)
  {
    var text := Text(negative, whole, fraction);
    var d := DecimalsOf(Some(text));
    var m := SignedHasDecimals(negative, whole, fraction);
    StepKeepsFractionIff(negative, whole, fraction);
    StepMeaning(Some(text));
    DecimalsAreOnGrid(Signed(text), shift, m, n, |fraction|, d);
    KeptIffOnGrid(Signed(text), shift, Pow10(d));
  }

  lemma NumberOf123456()
    ensures Signed("123.456") == 123.456
  {
    assert "123" + "." + "456" == "123.456";
    PartsOfText("123", "456");
    assert "123"[..2] == "12" && "12"[..1] == "1" && "1"[..0] == "";
    assert Whole("1") == 1.0 && Whole("12") == 12.0 && Whole("123") == 123.0;
    assert "456"[1..] == "56" && "56"[1..] == "6" && "6"[1..] == "";
    assert Fraction("6") == 0.6 && Fraction("56") == 0.56 && Fraction("456") == 0.456;
  }

  /** Without it a digit goes: 123.456 gets two decimals and comes back as 123.45. */
  lemma DigitLost()
    ensures DecimalsOf(Some("123.456")) == 2 && Signed("123.456") == 123.456
    ensures ToValue(ToPosition(123.456, 0.0, Pow10(2)), 0.0, Pow10(2)) == 123.45
  {
    assert Text(false, "123", "456") == "123.456";
    DotOfText(false, "123", "456");
    assert Pow10(1) == 10.0;
    assert Pow10(2) == 100.0;
    assert (123.456 - 0.0) * 100.0 == 12345.6;
    NumberOf123456();
  }

  /** A greater value never has a smaller position, so what is in the range is on the bar. */
  lemma PositionsAreOrdered(a: real, b: real, shift: real, scale: real)
    requires scale > 0.0 && a <= b
    ensures ToPosition(a, shift, scale) <= ToPosition(b, shift, scale)
    ensures shift <= a ==> 0 <= ToPosition(a, shift, scale)
  {
    MulLeq(a - shift, b - shift, scale);
    TruncatedIsMonotone((a - shift) * scale, (b - shift) * scale);
    if shift <= a {
      MulLeq(0.0, a - shift, scale);
    }
  }

  // -------------------------------------------------------------- the class

  class AppSeekBar {
    var mShift: real
    var mDecimalValue: bool
    var mStep: real
    var mDecimals: nat
    var max: int
    var progress: int

    constructor ()
      ensures mStep == 1.0 && !mDecimalValue && progress == 0 && max == 100 && mShift == 0.0 && mDecimals == 0
    {
      mShift, mDecimalValue, mStep, mDecimals, max, progress := 0.0, false, 1.0, 0, 100, 0;
    }

    method SetStep(step: string)
      requires mDecimalValue ==> Number(step) != 0.0
      modifies this`mStep, this`mDecimals
      ensures mDecimalValue ==> mStep == 1.0 / Number(step) && mDecimals == Decimals(step)
      ensures !mDecimalValue ==> mStep == Truncated(Number(step)) as real && mDecimals == 0
    {
      var dStep := Number(step);
      if mDecimalValue {
        mStep := 1.0 / dStep;
        var dot := IndexOf(step, '.');
        mDecimals := if dot != -1 then |step| - dot - 1 else 0;
      } else {
        mStep := Truncated(dStep) as real;
        mDecimals := 0;
      }
    }

    /** The bar keeps its position between 0 and its maximum. */
    method SetMax(value: real)
      modifies this`max, this`progress
      ensures max == NotBelowZero(ToPosition(value, mShift, mStep))
      ensures progress == Clamp(0, old(progress), max)
      ensures 0 <= progress <= max && (0 <= old(progress) <= max ==> progress == old(progress))
    {
      var position := ToPosition(value, mShift, mStep);
      max := if position < 0 then 0 else position;
      if progress > max {
        progress := max;
      }
      if progress < 0 {
        progress := 0;
      }
    }

    method SetProgress(value: real)
      requires max >= 0
      modifies this`progress
      ensures progress == Clamp(0, ToPosition(value, mShift, mStep), max)
      ensures 0 <= progress <= max
      ensures var position := ToPosition(value, mShift, mStep);
              && (0 <= position <= max ==> progress == position)
              && (position < 0 ==> progress == 0) && (position > max ==> progress == max)
    {
      var position := ToPosition(value, mShift, mStep);
      progress := if position < 0 then 0 else if position > max then max else position;
    }

    method GetValue() returns (value: real)
      requires mStep != 0.0
      ensures mDecimalValue ==> value == ToValue(progress, mShift, mStep)
      ensures !mDecimalValue ==> value == Truncated(ToValue(progress, mShift, mStep)) as real
    {
      value := ToValue(progress, mShift, mStep);
      if !mDecimalValue {
        value := Truncated(value) as real;
      }
    }

    /** `Utils.setWithProperty`; `ok` says that the text, if there is one, denotes a number. */
    method SetWithProperty(decimal: bool, value: Option<string>, rangeMin: real, rangeMax: real) returns (ok: bool)
      modifies this
      ensures mDecimalValue == decimal && mShift == rangeMin
      ensures mStep == if decimal then Pow10(DecimalsOf(value)) else 1.0
      ensures mDecimals == if decimal then DecimalsOf(value) else 0
      ensures max == NotBelowZero(ToPosition(rangeMax, rangeMin, mStep))
      ensures ok <==> value.None? || value.value == "" || ValueOf(value.value).Some?
      ensures progress ==
              if !ok then Clamp(0, old(progress), max)
              else if value.None? || value.value == "" then 0
              else Clamp(0, ToPosition(Signed(value.value), rangeMin, mStep), max)
    {
      mDecimalValue := decimal;
      if decimal {
        StepMeaning(value);
        var step := "0.01";
        if value.Some? {
          step := StepString(value.value);
        }
        SetStep(step);
      } else {
        OneIsOne();
        SetStep("1");
      }
      mShift := rangeMin;
      SetMax(rangeMax);
      if value.Some? && value.value != "" {
        match ValueOf(value.value) {
          case None => return false;
          case Some(number) => SetProgress(number);
        }
      } else {
        PositionsAreOrdered(rangeMin, rangeMin, rangeMin, mStep);
        SetProgress(rangeMin);
      }
      return true;
    }
  }

  /** What is in the range needs no clamping. */
  lemma InRangeIsNotClamped(value: real, rangeMin: real, rangeMax: real, scale: real)
    requires scale > 0.0 && rangeMin <= value <= rangeMax
    ensures var position := ToPosition(value, rangeMin, scale);
            Clamp(0, position, NotBelowZero(ToPosition(rangeMax, rangeMin, scale))) == position
  {
    PositionsAreOrdered(value, rangeMax, rangeMin, scale);
  }

  /** Set up with a text of few enough digits and a number in the range, the bar shows that
      number, with at least the decimals of the text. */
  method ShowText(bar: AppSeekBar, negative: bool, whole: string, fraction: string,
                  rangeMin: real, rangeMax: real, ghost n: int)
    returns (shown: real)
    requires AllDigits(whole) && AllDigits(fraction) && whole + fraction != ""
    requires |fraction| <= 1 || |whole| <= if negative then 3 else 2
    requires HasDecimals(rangeMin, |fraction|, n)
    requires rangeMin <= Signed(Text(negative, whole, fraction)) <= rangeMax
    modifies bar
    ensures shown == Signed(Text(negative, whole, fraction)) && |fraction| <= bar.mDecimals
  {
    var text := Text(negative, whole, fraction);
    TextIsDecimal(negative, whole, fraction);
    TextIsKept(negative, whole, fraction, rangeMin, n);
    StepKeepsFractionIff(negative, whole, fraction);
    StepMeaning(Some(text));
    InRangeIsNotClamped(Signed(text), rangeMin, rangeMax, Pow10(DecimalsOf(Some(text))));
    var ok := bar.SetWithProperty(true, Some(text), rangeMin, rangeMax);
    shown := bar.GetValue();
  }

  function NotBelowZero(x: int): int {
    if x < 0 then 0 else x
  }

  function Clamp(low: int, x: int, high: int): int {
    if x < low then low else if x > high then high else x
  }

  lemma OneIsOne()
    ensures Number("1") == 1.0 && Truncated(1.0) == 1
  {
    assert "1"[..0] == "";
  }
}
