/** Decimal numerals as both runtimes print and read them: `to_string`, `tostring` and `format!` on the
    writing side, `tonumber` and `str::parse` on the reading side. */
module Decimal {
  import opened Wrappers

  const DIGITS := "0123456789"
  const USIZE_MAX: nat := 0xffff_ffff_ffff_ffff
  const U64_MAX: nat := 0xffff_ffff_ffff_ffff
  const I64_MAX: int := 0x7fff_ffff_ffff_ffff
  const I64_MIN: int := -0x8000_0000_0000_0000

  predicate IsDigit(c: char) {
    '0' <= c <= '9'
  }

  predicate AllDigits(s: string) {
    forall i | 0 <= i < |s| :: IsDigit(s[i])
  }

  function DigitValue(c: char): (d: nat)
    requires IsDigit(c)
    ensures d < 10
  {
    (c as int) - ('0' as int)
  }

  /** The numeral of `n`, without leading zeros. */
  function Format(n: nat): (s: string)
    ensures |s| > 0
    ensures AllDigits(s)
  {
    if n < 10 then [DIGITS[n]] else Format(n / 10) + [DIGITS[n % 10]]
  }

  /** The number a string of digits denotes. */
  function Value(s: string): nat
    requires AllDigits(s)
  {
    if s == [] then 0 else Value(s[..|s| - 1]) * 10 + DigitValue(s[|s| - 1])
  }

  lemma {:induction false} FormatValue(n: nat)
    ensures Value(Format(n)) == n
  {
    assert forall d | 0 <= d < 10 :: DigitValue(DIGITS[d]) == d;
    if n >= 10 {
      var front := Format(n / 10);
      assert Format(n)[..|Format(n)| - 1] == front;
      FormatValue(n / 10);
    }
  }

  lemma FormatInjective(m: nat, n: nat)
    requires Format(m) == Format(n)
    ensures m == n
  {
    FormatValue(m);
    FormatValue(n);
  }

  lemma AppendInjective(p: string, x: string, y: string)
    requires p + x == p + y
    ensures x == y
  {
    assert x == (p + x)[|p|..] && y == (p + y)[|p|..];
  }

  /** A numeral followed by ':' can be cut off again in only one way. */
  lemma FieldInjective(m: nat, x: string, n: nat, y: string)
    requires Format(m) + ":" + x == Format(n) + ":" + y
    ensures m == n && x == y
  {
    var f, g := Format(m), Format(n);
    var s, t := f + ":" + x, g + ":" + y;
    assert s[|f|] == ':' && t[|g|] == ':';
    assert forall i | 0 <= i < |f| :: s[i] == f[i] && IsDigit(s[i]);
    assert forall i | 0 <= i < |g| :: t[i] == g[i] && IsDigit(t[i]);
    assert |f| == |g|;
    assert s[..|f|] == f && t[..|g|] == g;
    assert s[|f| + 1..] == x && t[|g| + 1..] == y;
    FormatInjective(m, n);
  }

  /** `i64::to_string`, and `string.format('%.0f', …)` on whole numbers. */
  function FormatInt(n: int): (s: string)
    ensures |s| > 0
    ensures 'e' !in s
  {
    if n < 0 then "-" + Format(-n) else Format(n)
  }

  /** `str::parse` for an unsigned Rust integer type whose largest value is `max`. */
  function ParseUnsigned(s: string, max: nat): Option<nat> {
    var digits := if |s| > 0 && s[0] == '+' then s[1..] else s;
    if digits == [] || !AllDigits(digits) || Value(digits) > max then None else Some(Value(digits))
  }

  lemma ParseFormat(n: nat, max: nat)
    ensures ParseUnsigned(Format(n), max) == if n <= max then Some(n) else None
  {
    FormatValue(n);
    assert IsDigit(Format(n)[0]);
  }
}
