/** Whole numbers as Lua turns them into text by itself, with `tostring` or `..`: in the format `%.14g`. */
module LuaNumbers {
  import opened Decimal
  import opened Policy

  /** The smallest number that needs more than 14 digits. */
  const SIGNIFICANT: nat := 100_000_000_000_000

  function Magnitude(v: int): nat {
    if v < 0 then -v else v
  }

  /** The weight of the last digit that is kept. */
  function UnitOf(n: nat): (u: nat)
    ensures u > 0
  {
    if n < SIGNIFICANT then 1 else 10 * UnitOf(n / 10)
  }

  /** The nearest multiple of `unit`, the even one of two that are equally near. */
  function RoundTo(n: nat, unit: nat): nat
    requires unit > 0
  {
    var q, r := n / unit, n % unit;
    if 2 * r > unit || (2 * r == unit && q % 2 == 1) then (q + 1) * unit else q * unit
  }

  /** The number that the text denotes. */
  function LuaValue(v: int): int {
    if v < 0 then 0 - Kept(v) else Kept(v)
  }

  function Kept(v: int): nat {
    RoundTo(Magnitude(v), UnitOf(Magnitude(v)))
  }

  function DropZeros(digits: string): string {
    if digits != [] && digits[|digits| - 1] == '0' then DropZeros(digits[..|digits| - 1]) else digits
  }

  /** At least two digits. */
  function Exponent(e: nat): string {
    if e < 10 then "0" + Format(e) else Format(e)
  }

  /** One digit, a fraction without trailing zeros, and the exponent. */
  function Scientific(n: nat): string {
    var digits := Format(n);
    var fraction := DropZeros(digits[1..]);
    digits[..1] + (if fraction == "" then "" else "." + fraction) + "e+" + Exponent(|digits| - 1)
  }

  function LuaNumber(v: int): string {
    if Magnitude(v) < SIGNIFICANT then FormatInt(v) else (if v < 0 then "-" else "") + Scientific(Kept(v))
  }

  lemma RoundToExact(n: nat, unit: nat)
    requires unit > 0
    ensures RoundTo(n, unit) == n <==> n % unit == 0
  {
    var q, r := n / unit, n % unit;
    assert n == q * unit + r;
    assert (q + 1) * unit == q * unit + unit;
  }

  lemma RoundToNear(n: nat, unit: nat)
    requires unit > 0
    ensures RoundTo(n, unit) % unit == 0
    ensures 2 * (RoundTo(n, unit) - n) <= unit && 2 * (n - RoundTo(n, unit)) <= unit
    ensures 2 * (RoundTo(n, unit) - n) == unit || 2 * (n - RoundTo(n, unit)) == unit ==> RoundTo(n, unit) / unit % 2 == 0
  {
    var q, r := n / unit, n % unit;
    assert n == q * unit + r;
    assert (q + 1) * unit == q * unit + unit;
    MultipleOf(q, unit);
    MultipleOf(q + 1, unit);
  }

  lemma Quotient(n: nat, u: nat, q: nat, r: nat)
    requires n == u * q + r && r < u
    ensures n / u == q
  {
    assert u * (n / u) + n % u == n;
    if n / u < q {
      MulMonotone(n / u + 1, q, u);
    } else if n / u > q {
      MulMonotone(q + 1, n / u, u);
    }
  }

  lemma MultipleOf(q: nat, unit: nat)
    requires unit > 0
    ensures q * unit / unit == q && q * unit % unit == 0
  {
    Quotient(q * unit, unit, q, 0);
  }

  /** The text denotes the number itself exactly when all digits after the fourteenth are zero. */
  lemma ValueExactIff(v: int)
    ensures LuaValue(v) == v <==> Magnitude(v) % UnitOf(Magnitude(v)) == 0
  {
    RoundToExact(Magnitude(v), UnitOf(Magnitude(v)));
    hide RoundTo, UnitOf;
  }

  /** It is the plain numeral exactly when the number has at most fourteen digits. */
  lemma TextExactIff(v: int)
    ensures LuaNumber(v) == FormatInt(v) <==> Magnitude(v) < SIGNIFICANT
  {
    if Magnitude(v) >= SIGNIFICANT {
      ScientificHasE(Kept(v));
      hide FormatInt, Scientific, Kept;
      assert 'e' in LuaNumber(v);
    }
  }

  lemma ScientificHasE(n: nat)
    ensures 'e' in Scientific(n)
  {
    var digits := Format(n);
    hide Format, DropZeros;
    var head := digits[..1] + (if DropZeros(digits[1..]) == "" then "" else "." + DropZeros(digits[1..]));
    assert Scientific(n)[|head|] == 'e';
  }

  /** The text is never further off than half a unit of the fourteenth digit, and of two numbers equally near it is the one
      whose last digit is even. */
  lemma ValueNear(v: int)
    ensures 2 * (LuaValue(v) - v) <= UnitOf(Magnitude(v)) && 2 * (v - LuaValue(v)) <= UnitOf(Magnitude(v))
    ensures 2 * (LuaValue(v) - v) == UnitOf(Magnitude(v)) || 2 * (v - LuaValue(v)) == UnitOf(Magnitude(v)) ==>
              Magnitude(LuaValue(v)) / UnitOf(Magnitude(v)) % 2 == 0
  {
    RoundToNear(Magnitude(v), UnitOf(Magnitude(v)));
    hide RoundTo, UnitOf;
  }
}
