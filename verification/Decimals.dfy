/** Exact decimals as JSON writes them, and the doubles they are read as. */
module Decimals {
  function Pow(base: nat, exponent: nat): (power: nat)
    ensures base > 0 ==> power > 0
  {
    if exponent == 0 then 1 else base * Pow(base, exponent - 1)
  }

  lemma Regroups(a: int, b: int, c: int)
    ensures a * (b * c) == a * b * c
    ensures a * (b * c) == b * (a * c)
  {
  }

  lemma PowUnfolds(base: nat, exponent: nat)
    requires exponent > 0
    ensures Pow(base, exponent) == base * Pow(base, exponent - 1)
  {
  }

  lemma {:induction false} PowAdds(base: nat, a: nat, b: nat)
    ensures Pow(base, a + b) == Pow(base, a) * Pow(base, b)
  {
    if a > 0 {
      hide Pow;
      PowAdds(base, a - 1, b);
      PowUnfolds(base, a);
      PowUnfolds(base, a + b);
      Regroups(base, Pow(base, a - 1), Pow(base, b));
    }
  }

  lemma {:induction false} PowGrows(base: nat, a: nat, b: nat)
    requires base > 0 && a <= b
    ensures Pow(base, a) <= Pow(base, b)
  {
    PowAdds(base, a, b - a);
    Scales(1, Pow(base, b - a), Pow(base, a));
  }

  lemma Scales(a: int, b: int, factor: int)
    requires a <= b && factor >= 0
    ensures a * factor <= b * factor
  {
  }

  lemma Cancels(a: int, b: int, factor: int)
    requires factor > 0
    ensures a * factor <= b * factor <==> a <= b
    ensures a * factor == b * factor <==> a == b
  {
    if a < b { ScalesStrictly(a, b, factor); }
    if b < a { ScalesStrictly(b, a, factor); }
  }

  lemma ScalesStrictly(a: int, b: int, factor: int)
    requires a < b && factor > 0
    ensures a * factor < b * factor
  {
    assert (b - a) * factor >= factor by { Scales(1, b - a, factor); }
    assert (b - a) * factor == b * factor - a * factor;
  }

  // ------------------------------------------------------------------------------------------
  // Digits.

  predicate IsDigit(c: char) { '0' <= c <= '9' }

  predicate AllDigits(s: string) { forall i :: 0 <= i < |s| ==> IsDigit(s[i]) }

  function DigitsValue(digits: string): nat
    requires AllDigits(digits)
  {
    if digits == "" then 0
    else 10 * DigitsValue(digits[..|digits| - 1]) + (digits[|digits| - 1] as int - '0' as int)
  }

  /** The digits with no zero at the end. */
  function Kept(digits: string): (kept: string)
    ensures kept <= digits
  {
    if digits != "" && digits[|digits| - 1] == '0' then Kept(digits[..|digits| - 1]) else digits
  }

  /** The zeros at the end are a power of ten, none are kept, and nothing is kept of zero alone. */
  lemma {:induction false} KeptTimesTens(digits: string)
    requires AllDigits(digits)
    ensures AllDigits(Kept(digits))
    ensures DigitsValue(digits) == DigitsValue(Kept(digits)) * Pow(10, |digits| - |Kept(digits)|)
    ensures Kept(digits) == "" <==> DigitsValue(digits) == 0
    ensures Kept(digits) != "" ==> DigitsValue(Kept(digits)) % 10 != 0
  {
    if digits != "" && digits[|digits| - 1] == '0' {
      KeptTimesTens(digits[..|digits| - 1]);
      hide Pow;
      var kept := Kept(digits);
      var zeros := |digits| - |kept|;
      PowUnfolds(10, zeros);
      Regroups(10, DigitsValue(kept), Pow(10, zeros - 1));
    }
  }

  // ------------------------------------------------------------------------------------------
  // Decimals.

  /** `mantissa` times ten to the `power`. */
  datatype Decimal = Decimal(mantissa: nat, power: int)

  function Over(x: int): nat { if x > 0 then x else 0 }

  /** The decimal is the integer `n`. */
  predicate IsInteger(d: Decimal, n: nat) {
    if d.power >= 0 then d.mantissa * Pow(10, d.power) == n else d.mantissa == n * Pow(10, -d.power)
  }

  lemma TensAbove(mantissa: nat, zeros: nat, power: nat)
    ensures mantissa * Pow(10, zeros) * Pow(10, power) == mantissa * Pow(10, zeros + power)
  {
    PowAdds(10, zeros, power);
    var a, b := Pow(10, zeros), Pow(10, power);
    assert mantissa * a * b == mantissa * (a * b);
  }

  lemma TensBelow(mantissa: nat, zeros: nat, more: nat, n: nat)
    ensures mantissa * Pow(10, zeros) == n * Pow(10, more + zeros) <==> mantissa == n * Pow(10, more)
  {
    PowAdds(10, more, zeros);
    var a, b := Pow(10, more), Pow(10, zeros);
    assert n * (a * b) == n * a * b;
    Cancels(mantissa, n * a, b);
  }

  lemma TensAcross(mantissa: nat, above: nat, below: nat, n: nat)
    ensures mantissa * Pow(10, above + below) == n * Pow(10, below) <==> mantissa * Pow(10, above) == n
  {
    PowAdds(10, above, below);
    var a, b := Pow(10, above), Pow(10, below);
    assert mantissa * (a * b) == mantissa * a * b;
    Cancels(mantissa * a, n, b);
  }

  /** A power of ten moved from the mantissa to the exponent changes no value. */
  lemma SameInteger(mantissa: nat, power: int, zeros: nat, n: nat)
    ensures IsInteger(Decimal(mantissa * Pow(10, zeros), power), n) <==> IsInteger(Decimal(mantissa, power + zeros), n)
  {
    hide Pow;
    if power >= 0 {
      TensAbove(mantissa, zeros, power);
    } else if power + zeros < 0 {
      TensBelow(mantissa, zeros, -power - zeros, n);
    } else {
      TensAcross(mantissa, power + zeros, -power, n);
    }
  }

  /**
   * Digits that end in no zero, times a power of ten, are an integer exactly when the power is
   * not negative, and then they are that one integer.
   */
  lemma IntegerIffPowerNotNegative(d: Decimal)
    requires d.mantissa % 10 != 0
    ensures (exists n: nat :: IsInteger(d, n)) <==> d.power >= 0
    ensures d.power >= 0 ==> forall n: nat :: IsInteger(d, n) <==> n == d.mantissa * Pow(10, d.power)
  {
    if d.power >= 0 {
      assert IsInteger(d, d.mantissa * Pow(10, d.power));
    } else {
      forall n: nat ensures !IsInteger(d, n) {
        assert Pow(10, -d.power) == 10 * Pow(10, -d.power - 1);
        assert n * (10 * Pow(10, -d.power - 1)) == 10 * (n * Pow(10, -d.power - 1));
      }
    }
  }

  // ------------------------------------------------------------------------------------------
  // Doubles.

  const SIGNIFICANDS: nat := 0x20_0000_0000_0000

  /** The magnitude of a double: a significand times a power of two. */
  datatype Magnitude = Magnitude(significand: nat, exponent: int)

  predicate IsDouble(m: Magnitude) {
    m.significand < SIGNIFICANDS && -1074 <= m.exponent <= 971
  }

  predicate NoMore(a: Magnitude, b: Magnitude) {
    a.significand * Pow(2, Over(a.exponent)) * Pow(2, Over(-b.exponent))
    <= b.significand * Pow(2, Over(b.exponent)) * Pow(2, Over(-a.exponent))
  }

  predicate AtMost(m: Magnitude, d: Decimal) {
    m.significand * Pow(2, Over(m.exponent)) * Pow(10, Over(-d.power))
    <= d.mantissa * Pow(10, Over(d.power)) * Pow(2, Over(-m.exponent))
  }

  predicate AtLeast(m: Magnitude, d: Decimal) {
    m.significand * Pow(2, Over(m.exponent)) * Pow(10, Over(-d.power))
    >= d.mantissa * Pow(10, Over(d.power)) * Pow(2, Over(-m.exponent))
  }

  /** The decimal is below the least power of two no double reaches. */
  predicate InRange(d: Decimal) {
    d.mantissa * Pow(10, Over(d.power)) < Pow(2, 1024) * Pow(10, Over(-d.power))
  }

  /**
   * What rounding a decimal to a finite double leaves: no double lies strictly between the
   * two. The nearest double has this, however ties go, and so has the nearest of a decimal
   * cut after its twentieth digit, which section 7.1.4.1.3 of ECMA-262 allows.
   */
  ghost predicate RoundsTo(d: Decimal, m: Magnitude) {
    && IsDouble(m) && InRange(d)
    && (forall other :: IsDouble(other) && AtMost(other, d) ==> NoMore(other, m))
    && (forall other :: IsDouble(other) && AtLeast(other, d) ==> NoMore(m, other))
  }

  /** The double is the integer `n`. */
  predicate IsWhole(m: Magnitude, n: nat) {
    m.significand * Pow(2, Over(m.exponent)) == n * Pow(2, Over(-m.exponent))
  }

  /** An integer decimal is compared with a double as that integer is. */
  lemma ComparedAsInteger(m: Magnitude, d: Decimal, n: nat)
    requires IsInteger(d, n)
    ensures AtMost(m, d) <==> m.significand * Pow(2, Over(m.exponent)) <= n * Pow(2, Over(-m.exponent))
    ensures AtLeast(m, d) <==> m.significand * Pow(2, Over(m.exponent)) >= n * Pow(2, Over(-m.exponent))
  {
    assert d.mantissa * Pow(10, Over(d.power)) == n * Pow(10, Over(-d.power));
    var left, right, tens := m.significand * Pow(2, Over(m.exponent)), Pow(2, Over(-m.exponent)), Pow(10, Over(-d.power));
    assert n * tens * right == n * right * tens;
    Cancels(left, n * right, tens);
    Cancels(n * right, left, tens);
  }

  /**
   * Reading an integer gives an integer, so it converts to an exact integer: one below two to
   * the 53rd is a double and is read as itself, and every double from there on is an integer.
   */
  lemma IntegersReadAsIntegers(d: Decimal, n: nat, m: Magnitude) returns (whole: nat)
    requires IsInteger(d, n) && RoundsTo(d, m)
    ensures IsWhole(m, whole)
    ensures n < SIGNIFICANDS ==> whole == n
  {
    if n < SIGNIFICANDS {
      var itself := Magnitude(n, 0);
      ComparedAsInteger(itself, d, n);
      assert NoMore(itself, m) && NoMore(m, itself);
      whole := n;
    } else {
      var least := Magnitude(0x10_0000_0000_0000, 1);
      ComparedAsInteger(least, d, n);
      assert Pow(2, 1) == 2 * Pow(2, 0);
      assert NoMore(least, m);
      if m.exponent < 0 {
        assert false;
      }
      whole := m.significand * Pow(2, m.exponent);
    }
  }

  lemma WholeIsOne(m: Magnitude, a: nat, b: nat)
    requires IsWhole(m, a) && IsWhole(m, b)
    ensures a == b
  {
    Cancels(a, b, Pow(2, Over(-m.exponent)));
  }

  // ------------------------------------------------------------------------------------------
  // How large a power can be.

  lemma {:induction false} PowOfPow(base: nat, a: nat, b: nat, k: nat)
    requires Pow(base, a) <= Pow(10, b)
    ensures Pow(base, a * k) <= Pow(10, b * k)
  {
    if k > 0 {
      PowOfPow(base, a, b, k - 1);
      assert a * k == a * (k - 1) + a && b * k == b * (k - 1) + b;
      PowAdds(base, a * (k - 1), a);
      PowAdds(10, b * (k - 1), b);
      Scales(Pow(base, a), Pow(10, b), Pow(base, a * (k - 1)));
      Scales(Pow(base, a * (k - 1)), Pow(10, b * (k - 1)), Pow(10, b));
    }
  }

  /** No double reaches ten to the 309th. */
  lemma RangeInTens()
    ensures Pow(2, 1024) < Pow(10, 309)
  {
    Binary93();
    PowOfPow(2, 93, 28, 11);
    PowAdds(2, 1, 1023);
    PowAdds(10, 1, 308);
    assert Pow(2, 1) == 2 * Pow(2, 0) && Pow(10, 1) == 10 * Pow(10, 0);
  }

  lemma Binary93()
    ensures Pow(2, 93) <= Pow(10, 28)
  {
    Small(2, 8);
    assert Pow(2, 31) == 0x8000_0000 by {
      PowAdds(2, 8, 8);
      PowAdds(2, 16, 8);
      PowAdds(2, 24, 7);
      assert Pow(2, 8) == 2 * Pow(2, 7);
    }
    PowAdds(2, 31, 31);
    PowAdds(2, 62, 31);
    Small(10, 7);
    PowAdds(10, 7, 7);
    PowAdds(10, 14, 14);
  }

  lemma Small(base: nat, exponent: nat)
    requires (base == 2 && exponent == 8) || (base == 10 && exponent == 7)
    ensures base == 2 ==> Pow(2, 8) == 256
    ensures base == 10 ==> Pow(10, 7) == 10_000_000
  {
    if base == 2 {
      assert Pow(2, 4) == 2 * Pow(2, 3) && Pow(2, 3) == 2 * Pow(2, 2) && Pow(2, 2) == 2 * Pow(2, 1) && Pow(2, 1) == 2;
      PowAdds(2, 4, 4);
    } else {
      assert Pow(10, 3) == 10 * Pow(10, 2) && Pow(10, 2) == 10 * Pow(10, 1) && Pow(10, 1) == 10;
      PowAdds(10, 3, 3);
      PowAdds(10, 6, 1);
    }
  }

  /** A decimal in range that is not zero has a power below 309. */
  lemma PowerIsSmall(d: Decimal)
    requires InRange(d) && d.mantissa > 0
    ensures d.power < 309
  {
    if d.power >= 309 {
      assert Pow(10, 0) == 1;
      hide Pow;
      RangeInTens();
      PowGrows(10, 309, d.power);
      Scales(1, d.mantissa, Pow(10, d.power));
    }
  }
}
