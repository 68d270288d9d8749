/** The invoice's money display, `f"${amount:.2f}"`: a dollar sign, a minus
    sign for a negative amount, the whole units, a point and exactly two
    digits of cents. The amount is rounded to the nearest cent, ties to the
    even cent, at display time only. */
module Money {
  import opened PyValues
  import opened Decimal

  /** Nearest whole number of cents to a non-negative amount, ties to even. */
  function Cents(amount: real): (c: nat)
    requires amount >= 0.0
    ensures -0.5 <= c as real - amount * 100.0 <= 0.5
    ensures c as real - amount * 100.0 == 0.5 || c as real - amount * 100.0 == -0.5 ==> c % 2 == 0
  {
    var scaled := amount * 100.0;
    var f := scaled.Floor;
    var frac := scaled - f as real;
    if frac < 0.5 then f
    else if frac > 0.5 then f + 1
    else if f % 2 == 0 then f
    else f + 1
  }

  /** An amount that is a whole number of cents is displayed exactly. */
  lemma CentsOfWholeCents(c: nat)
    ensures Cents(c as real / 100.0) == c
  {
    var scaled := (c as real / 100.0) * 100.0;
    assert scaled == c as real;
    assert scaled.Floor == c;
  }

  /** The cents as two digits, "05" for five. */
  function TwoDigits(m: nat): (s: string)
    requires m < 100
    ensures |s| == 2 && AllDigits(s) && ParseDigits(s) == m
  {
    var s := [DigitChar(m / 10), DigitChar(m % 10)];
    assert s[..1] == [DigitChar(m / 10)] && s[..1][..0] == [];
    assert ParseDigits(s[..1]) == m / 10;
    s
  }

  function Abs(amount: real): real
  {
    if amount < 0.0 then -amount else amount
  }

  /** `f"${amount:.2f}"`. */
  function FormatMoney(amount: real): (s: string)
    ensures |s| >= 5 && s[0] == '$' && s[|s| - 3] == '.'
    ensures AllDigits(s[|s| - 2..])
  {
    var c := Cents(Abs(amount));
    "$" + (if amount < 0.0 then "-" else "") + NatToString(c / 100) + "." + TwoDigits(c % 100)
  }

  /** The amount, in signed cents, that a displayed money string denotes. */
  function ParseMoney(s: string): (r: Option<int>)
    ensures r.Some? ==> |s| >= 5 && s[0] == '$' && s[|s| - 3] == '.'
    ensures r.Some? && r.value < 0 ==> s[1] == '-'
  {
    if |s| < 5 || s[0] != '$' then None
    else
      var negative := s[1] == '-';
      var body := if negative then s[2..] else s[1..];
      if |body| < 4 || body[|body| - 3] != '.' then None
      else
        var whole := body[..|body| - 3];
        var cents := body[|body| - 2..];
        if AllDigits(whole) && AllDigits(cents) then
          var magnitude: int := ParseDigits(whole) * 100 + ParseDigits(cents);
          Some(if negative then -magnitude else magnitude)
        else None
  }

  /** The displayed cents, signed like the amount. */
  function SignedCents(amount: real): int
  {
    var c: int := Cents(Abs(amount));
    if amount < 0.0 then -c else c
  }

  /** Reading a money string back takes apart exactly what was put together. */
  lemma {:induction false} ParseMoneyParts(negative: bool, units: nat, cents: nat)
    requires cents < 100
    ensures ParseMoney("$" + (if negative then "-" else "") + NatToString(units) + "." + TwoDigits(cents))
            == Some(if negative then -(units * 100 + cents) else units * 100 + cents)
  {
    var digits := NatToString(units);
    var body := digits + "." + TwoDigits(cents);
    var s := "$" + (if negative then "-" else "") + body;
    assert s == "$" + (if negative then "-" else "") + NatToString(units) + "." + TwoDigits(cents);
    if negative {
      assert s[1] == '-' && s[2..] == body;
    } else {
      assert s[1] == digits[0] && s[1..] == body;
    }
    assert body[|body| - 3] == '.';
    assert body[..|body| - 3] == digits;
    assert body[|body| - 2..] == TwoDigits(cents);
    ParseNatToString(units);
  }

  /** The same, for a whole number of cents split into units and cents. */
  lemma ParseMoneyCents(negative: bool, c: nat)
    ensures ParseMoney("$" + (if negative then "-" else "") + NatToString(c / 100) + "." + TwoDigits(c % 100))
            == Some(if negative then -(c as int) else c)
  {
    ParseMoneyParts(negative, c / 100, c % 100);
    assert (c / 100) * 100 + c % 100 == c;
  }

  /** Reading back what is displayed gives the rounded amount: nothing is
      lost between the rounded cents and the text. */
  lemma FormatMoneyRoundTrip(amount: real)
    ensures ParseMoney(FormatMoney(amount)) == Some(SignedCents(amount))
  {
    var c := Cents(Abs(amount));
    ParseMoneyCents(amount < 0.0, c);
    assert SignedCents(amount) == if amount < 0.0 then -(c as int) else c;
  }

  /** The displayed amount is within half a cent of the exact amount. */
  lemma DisplayWithinHalfCent(amount: real)
    ensures -0.5 <= SignedCents(amount) as real - amount * 100.0 <= 0.5
  {
  }

  lemma TenDollars()
    ensures FormatMoney(10.0) == "$10.00"
  {
    CentsOfWholeCents(1000);
    assert 10.0 == 1000 as real / 100.0;
    assert NatToString(10) == "10";
  }

  lemma TwentyDollars()
    ensures FormatMoney(20.0) == "$20.00"
  {
    CentsOfWholeCents(2000);
    assert 20.0 == 2000 as real / 100.0;
    assert NatToString(20) == "20";
  }
}
