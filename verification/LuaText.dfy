/** What the text of a number above 14 digits says: it reads back as the number that Lua keeps. */
module LuaText {
  import opened Decimal
  import opened Policy
  import opened LuaNumbers

  /** The text is a numeral in scientific notation of at most 14 digits, and denotes `n`. */
  ghost predicate Denotes(text: string, n: nat) {
    exists lead, fraction, exponent :: IsNumeral(text, lead, fraction, exponent, n)
  }

  function Numeral(lead: string, fraction: string, exponent: string): string {
    lead + (if fraction == "" then "" else "." + fraction) + "e+" + exponent
  }

  predicate IsNumeral(text: string, lead: string, fraction: string, exponent: string, n: nat) {
    && |lead| == 1 && AllDigits(lead) && AllDigits(fraction) && AllDigits(exponent) && |exponent| >= 2
    && text == Numeral(lead, fraction, exponent)
    && 1 + |fraction| <= 14 && |fraction| <= Value(exponent)
    && n == Value(lead + fraction) * Pow(10, Value(exponent) - |fraction|)
  }

  lemma PowStep(k: nat)
    ensures Pow(10, k + 1) == 10 * Pow(10, k) && Pow(10, k) >= 1
  {
    if k > 0 {
      PowStep(k - 1);
    }
  }

  lemma ValueAppend(s: string, c: char)
    requires AllDigits(s) && IsDigit(c)
    ensures Value(s + [c]) == Value(s) * 10 + DigitValue(c)
  {
    assert (s + [c])[..|s|] == s;
  }

  /** Dropped zeros are a power of ten. */
  lemma {:induction false} DroppedZeros(lead: string, s: string)
    requires AllDigits(lead) && AllDigits(s)
    ensures |DropZeros(s)| <= |s| && DropZeros(s) == s[..|DropZeros(s)|]
    ensures Value(lead + s) == Value(lead + DropZeros(s)) * Pow(10, |s| - |DropZeros(s)|)
    decreases |s|
  {
    if s != [] && s[|s| - 1] == '0' {
      var front := s[..|s| - 1];
      DroppedZeros(lead, front);
      assert lead + s == (lead + front) + ['0'];
      ValueAppend(lead + front, '0');
      var k := |front| - |DropZeros(front)|;
      PowStep(k);
      Shift(Value(lead + DropZeros(front)), Pow(10, k));
    }
  }

  lemma Shift(a: nat, b: nat)
    ensures a * b * 10 == a * (10 * b)
  {
  }

  /** The unit of the last digit is a power of ten, and at most 14 digits stand above it. */
  lemma {:induction false} UnitPower(n: nat) returns (k: nat)
    ensures UnitOf(n) == Pow(10, k) && n / UnitOf(n) < SIGNIFICANT
    ensures n > 0 ==> n / UnitOf(n) > 0
    decreases n
  {
    if n < SIGNIFICANT {
      k := 0;
    } else {
      k := UnitPower(n / 10);
      PowStep(k);
      DivideTwice(n, UnitOf(n / 10));
      k := k + 1;
    }
  }

  lemma DivideTwice(n: nat, u: nat)
    requires u > 0
    ensures n / (10 * u) == n / 10 / u
  {
    var a, r := n / 10, n % 10;
    var q, t := a / u, a % u;
    assert a == u * q + t && n == 10 * a + r;
    assert n == (10 * u) * q + (10 * t + r);
    Quotient(n, 10 * u, q, 10 * t + r);
  }

  lemma {:induction false} FormatShort(n: nat, k: nat)
    requires k >= 1 && n < Pow(10, k)
    ensures |Format(n)| <= k
    decreases k
  {
    PowStep(k - 1);
    if n >= 10 {
      assert Pow(10, 0) == 1;
      FormatShort(n / 10, k - 1);
    }
  }

  /** A multiple of a power of ten ends in as many zeros: few digits are left when they are dropped. */
  lemma {:induction false} FewDigits(q: nat, k: nat, m: nat)
    requires q > 0 && m >= 1 && q < Pow(10, m)
    ensures |DropZeros(Format(q * Pow(10, k))[1..])| < m
    decreases k
  {
    if k == 0 {
      FormatShort(q, m);
      Shorter(Format(q)[1..]);
      assert q * Pow(10, 0) == q;
    } else {
      var n := q * Pow(10, k - 1);
      FewDigits(q, k - 1, m);
      PowStep(k - 1);
      Shift(q, Pow(10, k - 1));
      MulMonotone(1, q, Pow(10, k - 1));
      TenTimes(n);
    }
  }

  lemma TenTimes(n: nat)
    requires n > 0
    ensures DropZeros(Format(n * 10)[1..]) == DropZeros(Format(n)[1..])
  {
    assert n * 10 / 10 == n && n * 10 % 10 == 0;
    var digits := Format(n * 10);
    assert digits == Format(n) + ['0'];
    assert digits[1..] == Format(n)[1..] + ['0'];
    assert (Format(n)[1..] + ['0'])[..|Format(n)[1..]|] == Format(n)[1..];
  }

  lemma {:induction false} Shorter(s: string)
    ensures |DropZeros(s)| <= |s|
    decreases |s|
  {
    if s != [] && s[|s| - 1] == '0' {
      Shorter(s[..|s| - 1]);
    }
  }

  lemma ScientificDenotes(n: nat)
    requires |DropZeros(Format(n)[1..])| < 14
    ensures Denotes(Scientific(n), n)
  {
    hide *;
    var digits := Format(n);
    var lead, fraction, e := digits[..1], DropZeros(digits[1..]), |digits| - 1;
    ScientificParts(n);
    ScientificValue(n);
    ExponentReads(e);
    NumeralOf(Scientific(n), lead, fraction, Exponent(e), n);
  }

  lemma NumeralOf(text: string, lead: string, fraction: string, exponent: string, n: nat)
    requires |lead| == 1 && AllDigits(lead) && AllDigits(fraction) && AllDigits(exponent) && |exponent| >= 2
    requires text == Numeral(lead, fraction, exponent)
    requires |fraction| < 14 && |fraction| <= Value(exponent)
    requires n == Value(lead + fraction) * Pow(10, Value(exponent) - |fraction|)
    ensures Denotes(text, n)
  {
    hide Numeral, Value, Pow;
    assert IsNumeral(text, lead, fraction, exponent, n);
  }

  lemma ScientificParts(n: nat)
    ensures var digits := Format(n);
            var lead, fraction, e := digits[..1], DropZeros(digits[1..]), |digits| - 1;
            Scientific(n) == Numeral(lead, fraction, Exponent(e))
  {
    hide Format, DropZeros, Exponent;
  }

  lemma ScientificValue(n: nat)
    ensures var digits := Format(n);
            var lead, fraction, e := digits[..1], DropZeros(digits[1..]), |digits| - 1;
            && |lead| == 1 && AllDigits(lead) && AllDigits(fraction) && |fraction| <= e
            && n == Value(lead + fraction) * Pow(10, e - |fraction|)
  {
    var digits := Format(n);
    DroppedZeros(digits[..1], digits[1..]);
    FormatValue(n);
    hide Format, DropZeros, Value, Pow;
    assert digits == digits[..1] + digits[1..];
  }

  lemma ExponentReads(e: nat)
    ensures AllDigits(Exponent(e)) && |Exponent(e)| >= 2 && Value(Exponent(e)) == e
  {
    FormatValue(e);
    if e < 10 {
      assert Exponent(e)[..1] == "0" && Value("0") == 0;
    }
  }

  /** The text of a number above 14 digits is its sign and a numeral of at most 14 digits that denotes what Lua keeps. */
  lemma TextDenotes(v: int)
    requires Magnitude(v) >= SIGNIFICANT
    ensures var sign := if v < 0 then "-" else "";
            exists text :: LuaNumber(v) == sign + text && Denotes(text, Magnitude(LuaValue(v)))
  {
    var n := Magnitude(v);
    var k := UnitPower(n);
    KeptShort(n, k);
    ScientificDenotes(Kept(v));
    assert Magnitude(LuaValue(v)) == Kept(v);
    hide Kept, Denotes, Scientific;
    assert LuaNumber(v) == (if v < 0 then "-" else "") + Scientific(Kept(v));
  }

  lemma FourteenDigits()
    ensures Pow(10, 14) == SIGNIFICANT
    ensures Pow(10, 13) == 10_000_000_000_000
  {
  }

  lemma KeptShort(n: nat, k: nat)
    requires UnitOf(n) == Pow(10, k) && 0 < n / UnitOf(n) < SIGNIFICANT
    ensures |DropZeros(Format(RoundTo(n, UnitOf(n)))[1..])| < 14
  {
    var q := n / UnitOf(n);
    ShortAbove(q, k);
    ShortAbove(q + 1, k);
    hide UnitOf, Format, DropZeros, Pow;
  }

  /** At most 14 digits, or a one with 14 zeros, before as many zeros as you like. */
  lemma ShortAbove(q: nat, k: nat)
    requires 0 < q <= SIGNIFICANT
    ensures |DropZeros(Format(q * Pow(10, k))[1..])| < 14
  {
    FourteenDigits();
    hide Format, DropZeros, Pow;
    if q < SIGNIFICANT {
      FewDigits(q, k, 14);
    } else {
      FewDigits(10_000_000_000_000, k + 1, 14);
      PowStep(k);
      assert q * Pow(10, k) == 10_000_000_000_000 * (10 * Pow(10, k));
    }
  }
}
