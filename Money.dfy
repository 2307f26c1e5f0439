/** Monetary amounts as integer cents. The TypeScript code keeps money in
    floating-point numbers, rounds with `Math.round(x * 100) / 100`, prints
    with `toString()` and reads with `parseFloat`; this module gives each of
    those an exact meaning on cents. */
module Money {
  import opened Wrappers
  import opened Text

  /** `Math.round(num / den)`: the nearest integer, halves rounded up (towards +infinity). */
  function RoundHalfUp(num: int, den: int): (r: int)
    requires den > 0
    ensures 2 * den * r <= 2 * num + den < 2 * den * (r + 1)
  {
    var r := (2 * num + den) / (2 * den);
    DivBounds(2 * num + den, 2 * den);
    r
  }

  lemma DivBounds(a: int, b: int)
    requires b > 0
    ensures b * (a / b) <= a < b * (a / b + 1)
  {
  }

  /** The two digits after the decimal point that `toString` prints for
      `frac` hundredths: none for whole amounts, one when the last is 0. */
  function Fraction(frac: nat): (s: string)
    requires frac < 100
    ensures |s| <= 3
    ensures s == "" <==> frac == 0
    ensures s != "" ==> |s| >= 2 && s[0] == '.' && AllDigits(s[1..]) && s[|s| - 1] != '0'
  {
    if frac == 0 then ""
    else if frac % 10 == 0 then "." + [DigitChar(frac / 10)]
    else "." + [DigitChar(frac / 10), DigitChar(frac % 10)]
  }

  /** `(cents / 100).toString()`: "12.5" for 1250, "12.05" for 1205, "12" for 1200. */
  function FormatCents(cents: int): (s: string)
    ensures |s| > 0
    ensures s[0] == '-' <==> cents < 0
    ensures '.' in s <==> cents % 100 != 0
    ensures '.' in s ==> |s| >= 3 && s[|s| - 1] != '0' && (s[|s| - 2] == '.' || s[|s| - 3] == '.')
  {
    var a := if cents < 0 then -cents else cents;
    var whole := NatToString(a / 100);
    var frac := Fraction(a % 100);
    assert forall i :: 0 <= i < |whole| ==> whole[i] != '.';
    assert '.' in frac <==> frac != "";
    assert a % 100 == 0 <==> cents % 100 == 0;
    var sign := if cents < 0 then "-" else "";
    assert (sign + whole)[0] == (if cents < 0 then '-' else whole[0]);
    assert IsDigit(whole[0]);
    sign + whole + frac
  }

  /** `parseFloat` of an amount written as digits with at most two decimals
      after a point, with an optional leading minus sign; `None` stands for
      NaN. */
  function ParseCents(s: string): (r: Option<int>)
    ensures s == "" ==> r.None?
    ensures r.Some? && s[0] == '-' ==> r.value <= 0
    ensures r.Some? && s[0] != '-' ==> r.value >= 0
  {
    if |s| > 0 && s[0] == '-' then
      match ParseUnsignedCents(s[1..])
      case Some(v) => Some(-v)
      case None => None
    else ParseUnsignedCents(s)
  }

  function ParseUnsignedCents(s: string): (r: Option<int>)
    ensures r.Some? ==> r.value >= 0
  {
    var k := IndexOf(s, '.');
    var whole := s[..k];
    if whole == [] || !AllDigits(whole) then None
    else if k == |s| then Some(100 * DecimalValue(whole))
    else
      var frac := s[k + 1..];
      if |frac| == 1 && IsDigit(frac[0]) then
        Some(100 * DecimalValue(whole) + 10 * DigitValue(frac[0]))
      else if |frac| == 2 && IsDigit(frac[0]) && IsDigit(frac[1]) then
        Some(100 * DecimalValue(whole) + 10 * DigitValue(frac[0]) + DigitValue(frac[1]))
      else None
  }

  /** `parseFloat(s) || 0`: a non-numeric (or zero) text counts as 0. */
  function ParseCentsOrZero(s: string): int {
    ParseCents(s).GetOr(0)
  }

  lemma {:induction false} UnsignedRoundTrip(c: nat)
    ensures ParseUnsignedCents(NatToString(c / 100) + Fraction(c % 100)) == Some(c)
  {
    var whole := NatToString(c / 100);
    var frac := Fraction(c % 100);
    var s := whole + frac;
    assert forall i :: 0 <= i < |whole| ==> s[i] == whole[i] && IsDigit(s[i]);
    if frac != "" {
      assert s[|whole|] == '.';
    }
    assert IndexOf(s, '.') == |whole|;
    assert s[..|whole|] == whole;
    NatToStringRoundTrip(c / 100);
    if c % 100 != 0 {
      assert s[|whole| + 1..] == frac[1..];
    }
  }

  /** Printing an amount and reading the text back gives the same amount. */
  lemma FormatParseRoundTrip(c: int)
    ensures ParseCents(FormatCents(c)) == Some(c)
  {
    if c < 0 {
      NegativeRoundTrip(c);
    } else {
      UnsignedRoundTrip(c);
      var whole := NatToString(c / 100);
      assert FormatCents(c)[0] == whole[0];
    }
  }

  lemma NegativeRoundTrip(c: int)
    requires c < 0
    ensures ParseCents(FormatCents(c)) == Some(c)
  {
    var n: nat := -c;
    var t := NatToString(n / 100) + Fraction(n % 100);
    var s := FormatCents(c);
    assert s == "-" + t;
    assert s[0] == '-' && s[1..] == t;
    UnsignedRoundTrip(n);
  }
}
