/** Decimal digit strings: printing natural numbers and integers, and the
    parsing that Python's `int()` and `float()` do on the form fields of an
    invoice (sign, digits, an optional fractional part). */
module Decimal {
  import opened PyValues

  predicate IsDigit(c: char)
  {
    '0' <= c <= '9'
  }

  predicate AllDigits(s: string)
  {
    forall i :: 0 <= i < |s| ==> IsDigit(s[i])
  }

  function DigitChar(d: nat): (c: char)
    requires d < 10
    ensures IsDigit(c) && DigitValue(c) == d
  {
    "0123456789"[d]
  }

  function DigitValue(c: char): (d: nat)
    requires IsDigit(c)
    ensures d < 10
  {
    (c as int - '0' as int) as nat
  }

  /** Value of a digit string; the empty string reads as 0. */
  function ParseDigits(s: string): nat
    requires AllDigits(s)
  {
    if s == [] then 0 else ParseDigits(s[..|s| - 1]) * 10 + DigitValue(s[|s| - 1])
  }

  function Pow10(n: nat): (p: nat)
    ensures p >= 1
  {
    if n == 0 then 1 else 10 * Pow10(n - 1)
  }

  /** `str(n)` for a natural number: shortest decimal, no leading zero. */
  function NatToString(n: nat): (s: string)
    ensures |s| > 0 && AllDigits(s)
    ensures |s| > 1 ==> s[0] != '0'
  {
    if n < 10 then [DigitChar(n)] else NatToString(n / 10) + [DigitChar(n % 10)]
  }

  lemma {:induction false} ParseNatToString(n: nat)
    ensures ParseDigits(NatToString(n)) == n
  {
    if n >= 10 {
      var s := NatToString(n);
      assert s[..|s| - 1] == NatToString(n / 10);
      ParseNatToString(n / 10);
    }
  }

  /** `str(i)` for an integer. */
  function IntToString(i: int): (s: string)
    ensures |s| > 0
  {
    if i < 0 then "-" + NatToString(-i) else NatToString(i)
  }

  /** Splits an optional leading sign off a numeral. */
  function SplitSign(s: string): (r: (bool, string))
    ensures |r.1| <= |s|
  {
    if |s| > 0 && (s[0] == '-' || s[0] == '+') then (s[0] == '-', s[1..]) else (false, s)
  }

  /** `int(s)` on a form field: an optional sign and one or more digits. */
  function ParseInt(s: string): (r: Option<int>)
    ensures r.Some? ==> |s| > 0
    ensures |s| > 0 && AllDigits(s) ==> r == Some(ParseDigits(s))
    ensures |s| > 1 && s[0] == '-' && AllDigits(s[1..]) ==> r == Some(-(ParseDigits(s[1..]) as int))
    ensures |s| > 0 && s[0] == '.' ==> r == None
  {
    var (negative, body) := SplitSign(s);
    if |body| > 0 && AllDigits(body) then
      var n: int := ParseDigits(body);
      Some(if negative then -n else n)
    else
      None
  }

  lemma IntRoundTrip(i: int)
    ensures ParseInt(IntToString(i)) == Some(i)
  {
    var n: nat := if i < 0 then -i else i;
    var body := NatToString(n);
    ParseNatToString(n);
    assert SplitSign(IntToString(i)) == (i < 0, body) by {
      assert IsDigit(body[0]);
      if i < 0 {
        assert IntToString(i)[1..] == body;
      }
    }
  }

  /** Position of the first '.', or |s| when there is none. */
  function DotIndex(s: string): (k: nat)
    ensures k <= |s|
    ensures forall j :: 0 <= j < k ==> s[j] != '.'
    ensures k < |s| ==> s[k] == '.'
  {
    if s == [] then 0 else if s[0] == '.' then 0 else 1 + DotIndex(s[1..])
  }

  /** The value of the digits after a decimal point: `d1 d2 ...` is
      `(d1 + 0.d2...) / 10`. */
  function Fraction(d: string): (f: real)
    requires AllDigits(d)
    ensures 0.0 <= f < 1.0
  {
    if d == [] then 0.0 else (DigitValue(d[0]) as real + Fraction(d[1..])) / 10.0
  }

  /** A digit string holds no '.'. */
  lemma DotIndexOfDigits(s: string)
    ensures AllDigits(s) ==> DotIndex(s) == |s|
  {
    if AllDigits(s) && DotIndex(s) < |s| {
      assert IsDigit(s[DotIndex(s)]);
    }
  }

  /** In digits, a '.' and anything, the first '.' follows the digits. */
  lemma DotIndexAfterDigits(whole: string, rest: string)
    requires AllDigits(whole)
    ensures DotIndex(whole + "." + rest) == |whole|
  {
    var s := whole + "." + rest;
    assert s[|whole|] == '.';
    assert forall j :: 0 <= j < |whole| ==> s[j] == whole[j];
  }

  /** An unsigned numeral: digits and at most one '.', with at least one
      digit. */
  function Magnitude(body: string): (r: Option<real>)
    ensures r.Some? ==> |body| > 0
    ensures |body| > 0 && AllDigits(body) ==> r == Some(ParseDigits(body) as real)
  {
    DotIndexOfDigits(body);
    var k := DotIndex(body);
    var whole := body[..k];
    var frac := if k < |body| then body[k + 1..] else [];
    assert AllDigits(body) ==> whole == body && frac == [];
    if AllDigits(whole) && AllDigits(frac) && |whole| + |frac| > 0 then
      Some(ParseDigits(whole) as real + Fraction(frac))
    else
      None
  }

  /** `float(s)` on a form field: an optional sign, then an unsigned
      numeral. */
  function ParseFloat(s: string): (r: Option<real>)
    ensures r.Some? ==> |s| > 0
    ensures |s| > 0 && AllDigits(s) ==> r == Some(ParseDigits(s) as real)
    ensures s == "." || s == "-." || s == "+." ==> r == None
  {
    var (negative, body) := SplitSign(s);
    match Magnitude(body)
    case None => None
    case Some(magnitude) => Some(if negative then -magnitude else magnitude)
  }

  /** The pieces of `whole.d`, for `whole` a non-empty digit string. */
  lemma NumeralParts(whole: string, d: string)
    requires |whole| > 0 && AllDigits(whole)
    ensures var s := whole + "." + d;
            && DotIndex(s) == |whole| && IsDigit(s[0])
            && s[..|whole|] == whole && s[|whole| + 1..] == d
  {
    var s := whole + "." + d;
    DotIndexAfterDigits(whole, d);
    assert s[0] == whole[0];
    assert s[..|whole|] == whole;
    assert s[|whole| + 1..] == d;
  }

  /** An unsigned numeral read around its first '.'. */
  lemma MagnitudeAtDot(s: string, k: nat)
    requires k < |s| && DotIndex(s) == k
    requires AllDigits(s[..k]) && AllDigits(s[k + 1..]) && k + (|s| - k - 1) > 0
    ensures Magnitude(s) == Some(ParseDigits(s[..k]) as real + Fraction(s[k + 1..]))
  {
  }

  /** The unsigned reading of `whole.d`. */
  lemma MagnitudeOfDecimal(whole: string, d: string)
    requires |whole| > 0 && AllDigits(whole) && AllDigits(d)
    ensures Magnitude(whole + "." + d) == Some(ParseDigits(whole) as real + Fraction(d))
  {
    NumeralParts(whole, d);
    MagnitudeAtDot(whole + "." + d, |whole|);
  }

  /** A numeral that starts with a digit has no sign to split off. */
  lemma FloatOfUnsigned(s: string)
    requires |s| > 0 && IsDigit(s[0])
    ensures ParseFloat(s) == Magnitude(s)
  {
    assert SplitSign(s) == (false, s);
  }

  /** A numeral with a fractional part: `whole.d` is `whole` plus `d` tenths,
      hundredths, ... as many places as `d` has digits; `d` may be empty. */
  lemma FloatOfDecimal(whole: string, d: string)
    requires |whole| > 0 && AllDigits(whole) && AllDigits(d)
    ensures ParseFloat(whole + "." + d) == Some(ParseDigits(whole) as real + Fraction(d))
  {
    assert (whole + "." + d)[0] == whole[0];
    FloatOfUnsigned(whole + "." + d);
    MagnitudeOfDecimal(whole, d);
  }

  /** `x` times ten, `n` times over: the point moved `n` places right. */
  function Shifted(x: real, n: nat): real
  {
    if n == 0 then x else 10.0 * Shifted(x, n - 1)
  }

  lemma {:induction false} ShiftedIsScaling(x: real, n: nat)
    ensures Shifted(x, n) == x * Pow10(n) as real
  {
    if n > 0 {
      ShiftedIsScaling(x, n - 1);
      var p := Pow10(n - 1) as real;
      assert Pow10(n) as real == 10.0 * p;
      assert 10.0 * (x * p) == x * (10.0 * p);
    }
  }

  lemma {:induction false} ShiftedSum(x: real, y: real, n: nat)
    ensures Shifted(x + y, n) == Shifted(x, n) + Shifted(y, n)
  {
    if n > 0 {
      ShiftedSum(x, y, n - 1);
    }
  }

  lemma {:induction false} ShiftedTenth(x: real, n: nat)
    ensures Shifted(x / 10.0, n + 1) == Shifted(x, n)
  {
    if n > 0 {
      ShiftedTenth(x, n - 1);
    }
  }

  /** Reading a digit string from the front: its first digit is shifted
      `|s| - 1` places. */
  lemma {:induction false} ParseDigitsFront(s: string)
    requires |s| > 0 && AllDigits(s)
    ensures ParseDigits(s) as real == Shifted(DigitValue(s[0]) as real, |s| - 1) + ParseDigits(s[1..]) as real
    decreases |s|
  {
    if |s| > 1 {
      var front := s[..|s| - 1];
      ParseDigitsFront(front);
      assert front[0] == s[0];
      assert front[1..] == s[1..][..|s| - 2];
      assert ParseDigits(s[1..]) == ParseDigits(front[1..]) * 10 + DigitValue(s[|s| - 1]);
    }
  }

  /** The fraction shifted `|d|` places is the digits read as a whole
      number. */
  lemma {:induction false} FractionShifted(d: string)
    requires AllDigits(d)
    ensures Shifted(Fraction(d), |d|) == ParseDigits(d) as real
    decreases |d|
  {
    if d != [] {
      var tail := d[1..];
      var c := DigitValue(d[0]) as real;
      FractionShifted(tail);
      ParseDigitsFront(d);
      ShiftedTenth(c + Fraction(tail), |tail|);
      ShiftedSum(c, Fraction(tail), |tail|);
    }
  }

  /** The fields of the form test: `"2"`, `"10.0"` and `"0.1"`. */
  lemma FormQuantity()
    ensures ParseInt("2") == Some(2)
  {
    assert AllDigits("2");
  }

  lemma FormPrice()
    ensures ParseFloat("10.0") == Some(10.0)
  {
    var whole, d := "10", "0";
    assert ParseDigits(whole) == 10 by {
      assert whole[..1] == "1";
    }
    assert Fraction(d) == 0.0;
    FloatOfDecimal(whole, d);
    assert whole + "." + d == "10.0";
  }

  lemma FormTaxRate()
    ensures ParseFloat("0.1") == Some(0.1)
  {
    var whole, d := "0", "1";
    assert ParseDigits(whole) == 0;
    assert Fraction(d) == 0.1;
    FloatOfDecimal(whole, d);
    assert whole + "." + d == "0.1";
  }

  lemma FloatOfInteger(i: int)
    ensures ParseFloat(IntToString(i)) == Some(i as real)
  {
    var s := IntToString(i);
    var body := SplitSign(s).1;
    assert body == NatToString(if i < 0 then -i else i);
    assert DotIndex(body) == |body|;
    assert body[..|body|] == body;
    ParseNatToString(if i < 0 then -i else i);
  }
}
