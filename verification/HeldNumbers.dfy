/** Whether every number of a JSON text is stored as it was written, once a double is read of it. */
module HeldNumbers {
  import opened Options
  import opened Decimals
  import opened JsonTokens

  /** The longest string the engine that runs the program holds. */
  const LONGEST_STRING: nat := 0x1FFF_FFE8

  const EXACT: int := 0x20_0000_0000_0000

  datatype Reading = NotFinite | Finite(negative: bool, magnitude: Magnitude)

  datatype Refusal = NotFiniteOnceRead | ReadsAsZero | AnotherInteger

  function ExponentValue(exponent: string): int
    requires IsExponent(exponent)
  {
    if exponent[0] == '-' then
      var size: int := DigitsValue(exponent[1..]);
      -size
    else if exponent[0] == '+' then DigitsValue(exponent[1..])
    else DigitsValue(exponent)
  }

  lemma DigitsJoin(n: NumberToken)
    requires IsNumberToken(n)
    ensures AllDigits(n.whole + n.fraction)
  {
  }

  /** The magnitude of the number as it is written. */
  function ValueOf(n: NumberToken): Decimal
    requires IsNumberToken(n)
  {
    DigitsJoin(n);
    Decimal(DigitsValue(n.whole + n.fraction), ExponentValue(n.exponent) - |n.fraction|)
  }

  /** Numbers are read as doubles, each rounded from what is written, with its sign. */
  ghost predicate ReadsNumbers(read: NumberToken -> Reading) {
    forall n :: IsNumberToken(n) && read(n).Finite? ==>
      read(n).negative == n.negative && RoundsTo(ValueOf(n), read(n).magnitude)
  }

  /** An exponent read as a double is itself up to two to the 53rd, and beyond it stays beyond it. */
  ghost predicate ReadsExponents(toNumber: int -> int) {
    forall x {:trigger toNumber(x)} ::
      && (-EXACT <= x <= EXACT ==> toNumber(x) == x)
      && (x > EXACT ==> toNumber(x) >= EXACT)
      && (x < -EXACT ==> toNumber(x) <= -EXACT)
  }

  /** The number is finite once read, is zero only if it is written so, and if it is an integer it is that one. */
  ghost predicate Held(n: NumberToken, reading: Reading)
    requires IsNumberToken(n)
  {
    && reading.Finite?
    && (reading.magnitude.significand == 0 ==> ValueOf(n).mantissa == 0)
    && forall k: nat :: IsInteger(ValueOf(n), k) ==> IsWhole(reading.magnitude, k) && reading.negative == n.negative
  }

  /** What is written is an integer, and what is read of it is not that integer. */
  ghost predicate AnotherIsRead(n: NumberToken, m: Magnitude)
    requires IsNumberToken(n)
  {
    exists k: nat :: IsInteger(ValueOf(n), k) && !IsWhole(m, k)
  }

  /** Which of the three ways a number is lost in, the first that holds. */
  ghost function LossOf(n: NumberToken, reading: Reading): (loss: Option<Refusal>)
    requires IsNumberToken(n)
    ensures reading.Finite? && reading.negative == n.negative ==> (loss.None? <==> Held(n, reading))
    ensures reading.NotFinite? ==> loss.Some?
  {
    if reading.NotFinite? then Some(NotFiniteOnceRead)
    else if reading.magnitude.significand == 0 && ValueOf(n).mantissa != 0 then Some(ReadsAsZero)
    else if AnotherIsRead(n, reading.magnitude) then Some(AnotherInteger)
    else None
  }

  predicate AreTokens(tokens: seq<Token>) {
    forall t :: t in tokens && t.Numeric? ==> IsNumberToken(t.number)
  }

  /** The loss of the first number that is lost. */
  ghost function FirstLoss(tokens: seq<Token>, read: NumberToken -> Reading): (loss: Option<Refusal>)
    requires AreTokens(tokens)
  {
    if tokens == [] then None
    else if tokens[0].Numeric? && LossOf(tokens[0].number, read(tokens[0].number)).Some?
    then LossOf(tokens[0].number, read(tokens[0].number))
    else FirstLoss(tokens[1..], read)
  }

  lemma {:induction false} ScanFindsTokens(s: string)
    ensures AreTokens(Scan(s))
    decreases |s|
  {
    if s != "" {
      if TokenAt(s).Some? { ScanFindsTokens(s[TokenAt(s).value.length..]); } else { ScanFindsTokens(s[1..]); }
    }
  }

  // ------------------------------------------------------------------------------------------
  // One number.

  /** The integer a double is. It is asked of integers alone. */
  function ToInteger(m: Magnitude): (n: nat)
    requires m.exponent >= 0 || m.significand % Pow(2, -m.exponent) == 0
    ensures IsWhole(m, n)
  {
    if m.exponent >= 0 then
      assert m.significand * Pow(2, m.exponent) * Pow(2, 0) == m.significand * Pow(2, m.exponent);
      m.significand * Pow(2, m.exponent)
    else m.significand / Pow(2, -m.exponent)
  }

  lemma WholeConverts(m: Magnitude, whole: nat)
    requires IsWhole(m, whole)
    ensures m.exponent >= 0 || m.significand % Pow(2, -m.exponent) == 0
  {
    if m.exponent < 0 { Multiple(whole, Pow(2, -m.exponent)); }
  }

  lemma Multiple(a: nat, b: nat)
    requires b > 0
    ensures (a * b) % b == 0
  {
    var quotient, remainder := (a * b) / b, (a * b) % b;
    assert (a - quotient) * b == a * b - quotient * b == remainder;
    if a > quotient { Scales(1, a - quotient, b); }
    if a < quotient { Scales(a - quotient, -1, b); }
  }

  /** The value of a number is what is kept of its digits times ten to the power that is left. */
  lemma KeptIsTheValue(n: NumberToken)
    requires IsNumberToken(n)
    ensures AllDigits(n.whole + n.fraction) && AllDigits(Kept(n.whole + n.fraction))
    ensures Kept(n.whole + n.fraction) == "" <==> ValueOf(n).mantissa == 0
    ensures var kept := Kept(n.whole + n.fraction);
      var power := ExponentValue(n.exponent) - |n.fraction| + (|n.whole + n.fraction| - |kept|);
      kept != "" ==> DigitsValue(kept) % 10 != 0 && forall k: nat :: IsInteger(ValueOf(n), k) <==>
                       IsInteger(Decimal(DigitsValue(kept), power), k)
  {
    var digits := n.whole + n.fraction;
    DigitsJoin(n);
    KeptTimesTens(digits);
    var kept := Kept(digits);
    forall k: nat
      ensures IsInteger(ValueOf(n), k) <==>
              IsInteger(Decimal(DigitsValue(kept), ValueOf(n).power + (|digits| - |kept|)), k)
    {
      SameInteger(DigitsValue(kept), ValueOf(n).power, |digits| - |kept|, k);
    }
  }

  /** The power computed of a rounded exponent has the sign of the exact one, and is exact where it is not negative. */
  lemma PowerIsRead(n: NumberToken, kept: nat, toNumber: int -> int, m: Magnitude)
    requires IsNumberToken(n) && ReadsExponents(toNumber) && RoundsTo(ValueOf(n), m) && ValueOf(n).mantissa > 0
    requires kept <= |n.whole| + |n.fraction| <= LONGEST_STRING
    ensures var rest := |n.whole| - kept;
      var exact, power := ExponentValue(n.exponent) + rest, toNumber(ExponentValue(n.exponent)) + rest;
      (power >= 0 <==> exact >= 0) && (power >= 0 ==> power == exact)
  {
    PowerIsSmall(ValueOf(n));
    var x := ExponentValue(n.exponent);
    assert x < 309 + LONGEST_STRING;
    assert x < -EXACT ==> toNumber(x) <= -EXACT;
  }

  /** What one number is refused for, computed as the program does: it is the number's loss. */
  method NumberLoss(n: NumberToken, reading: Reading, toNumber: int -> int) returns (refusal: Option<Refusal>)
    requires IsNumberToken(n) && ReadsExponents(toNumber)
    requires reading.Finite? ==> reading.negative == n.negative && RoundsTo(ValueOf(n), reading.magnitude)
    requires |n.whole| + |n.fraction| <= LONGEST_STRING
    ensures refusal == LossOf(n, reading)
  {
    hide Pow, IsInteger, IsWhole, RoundsTo, Kept, DigitsValue, AnotherIsRead, ToInteger, ExponentValue, ReadsExponents, AllDigits,
         IsExponent, Held;
    if reading.NotFinite? { return Some(NotFiniteOnceRead); }
    KeptIsTheValue(n);
    var m := reading.magnitude;
    var digits := n.whole + n.fraction;
    var kept := Kept(digits);
    if kept == "" {
      ZeroIsHeld(n, m);
      return None;
    }
    if m.significand == 0 { return Some(ReadsAsZero); }
    PowerIsRead(n, |kept|, toNumber, m);
    var power := toNumber(ExponentValue(n.exponent)) - |n.fraction| + (|digits| - |kept|);
    KeptDecides(n, m, power);
    if power >= 0 {
      var whole := DigitsValue(kept) * Pow(10, power);
      IntegerConverts(ValueOf(n), whole, m);
      if whole != ToInteger(m) { return Some(AnotherInteger); }
    }
    return None;
  }

  /** The double read of an integer converts to an integer, and is that integer exactly when the two are equal. */
  lemma IntegerConverts(d: Decimal, n: nat, m: Magnitude)
    requires IsInteger(d, n) && RoundsTo(d, m)
    ensures m.exponent >= 0 || m.significand % Pow(2, -m.exponent) == 0
    ensures IsWhole(m, n) <==> n == ToInteger(m)
  {
    var whole := IntegersReadAsIntegers(d, n, m);
    WholeConverts(m, whole);
    WholeIsOne(m, whole, ToInteger(m));
    if IsWhole(m, n) { WholeIsOne(m, n, whole); }
  }

  lemma ZeroIsHeld(n: NumberToken, m: Magnitude)
    requires IsNumberToken(n) && RoundsTo(ValueOf(n), m) && ValueOf(n).mantissa == 0
    ensures !AnotherIsRead(n, m)
  {
    forall k: nat | IsInteger(ValueOf(n), k) ensures IsWhole(m, k) {
      ZeroIsZero(ValueOf(n), k);
      var whole := IntegersReadAsIntegers(ValueOf(n), k, m);
    }
  }

  lemma ZeroIsZero(d: Decimal, k: nat)
    requires d.mantissa == 0 && IsInteger(d, k)
    ensures k == 0
  {
    if k > 0 && d.power < 0 { ScalesStrictly(0, k, Pow(10, -d.power)); }
  }

  /** A number is lost as another integer exactly when its power is not negative and its integer is not the double's. */
  lemma KeptDecides(n: NumberToken, m: Magnitude, power: int)
    requires IsNumberToken(n) && Kept(n.whole + n.fraction) != ""
    requires AllDigits(Kept(n.whole + n.fraction))
    requires var exact := ExponentValue(n.exponent) - |n.fraction| + (|n.whole + n.fraction| - |Kept(n.whole + n.fraction)|);
      (power >= 0 <==> exact >= 0) && (power >= 0 ==> power == exact)
    ensures AnotherIsRead(n, m) <==>
      power >= 0 && !IsWhole(m, DigitsValue(Kept(n.whole + n.fraction)) * Pow(10, power))
    ensures power >= 0 ==> IsInteger(ValueOf(n), DigitsValue(Kept(n.whole + n.fraction)) * Pow(10, power))
  {
    KeptIsTheValue(n);
    var kept := DigitsValue(Kept(n.whole + n.fraction));
    var exact := ExponentValue(n.exponent) - |n.fraction| + (|n.whole + n.fraction| - |Kept(n.whole + n.fraction)|);
    IntegerIffPowerNotNegative(Decimal(kept, exact));
  }

  // ------------------------------------------------------------------------------------------
  // A text.

  function LengthAt(s: string): (length: nat)
    requires s != ""
    ensures 0 < length <= |s|
  {
    if TokenAt(s).Some? then TokenAt(s).value.length else 1
  }

  /** The first token is judged, and the rest is scanned from where it ends. */
  lemma OneToken(s: string, read: NumberToken -> Reading)
    requires s != ""
    ensures AreTokens(Scan(s)) && AreTokens(Scan(s[LengthAt(s)..]))
    ensures var found := TokenAt(s);
      FirstLoss(Scan(s), read) ==
        if found.Some? && found.value.token.Numeric? && LossOf(found.value.token.number, read(found.value.token.number)).Some?
        then LossOf(found.value.token.number, read(found.value.token.number))
        else FirstLoss(Scan(s[LengthAt(s)..]), read)
  {
    ScanFindsTokens(s);
    ScanFindsTokens(s[LengthAt(s)..]);
    if TokenAt(s).Some? {
      assert Scan(s)[1..] == Scan(s[LengthAt(s)..]);
    }
    hide TokenAt, LossOf;
  }

  /** Reads the text's tokens from the left, and answers with the first number that is lost. */
  method NumberNotHeld(text: string, read: NumberToken -> Reading, toNumber: int -> int) returns (refusal: Option<Refusal>)
    requires |text| <= LONGEST_STRING && ReadsNumbers(read) && ReadsExponents(toNumber)
    ensures AreTokens(Scan(text)) && refusal == FirstLoss(Scan(text), read)
  {
    ScanFindsTokens(text);
    var rest := text;
    while rest != ""
      invariant |rest| <= |text| && AreTokens(Scan(rest)) && FirstLoss(Scan(text), read) == FirstLoss(Scan(rest), read)
      decreases |rest|
    {
      hide *;
      var found := TokenAt(rest);
      OneToken(rest, read);
      if found.Some? && found.value.token.Numeric? {
        var number := found.value.token.number;
        if read(number).Finite? { ReadingIsRounded(number, read); }
        refusal := NumberLoss(number, read(number), toNumber);
        if refusal.Some? { return; }
      }
      rest := rest[LengthAt(rest)..];
    }
    refusal := None;
  }

  lemma ReadingIsRounded(n: NumberToken, read: NumberToken -> Reading)
    requires IsNumberToken(n) && ReadsNumbers(read) && read(n).Finite?
    ensures read(n).negative == n.negative && RoundsTo(ValueOf(n), read(n).magnitude)
  {
  }

  lemma {:induction false} NoLossIsHeld(tokens: seq<Token>, read: NumberToken -> Reading)
    requires AreTokens(tokens) && ReadsNumbers(read)
    ensures FirstLoss(tokens, read).None? <==> forall t :: t in tokens && t.Numeric? ==> Held(t.number, read(t.number))
  {
    if tokens != [] {
      NoLossIsHeld(tokens[1..], read);
      assert tokens == [tokens[0]] + tokens[1..];
    }
  }

  /** Nothing is refused of a JSON document exactly when each of its numbers is held. */
  lemma DocumentIsHeld(before: string, json: Json, after: string, read: NumberToken -> Reading)
    requires IsSpace(before) && IsJson(json) && IsSpace(after) && ReadsNumbers(read)
    ensures var text := before + (TextOf(json) + after);
      AreTokens(Scan(text)) && AreTokens(TokensOf(json))
      && (FirstLoss(Scan(text), read).None?
          <==> forall t :: t in TokensOf(json) && t.Numeric? ==> Held(t.number, read(t.number)))
  {
    ScanIsTheGrammar(before, json, after);
    ScanFindsTokens(before + (TextOf(json) + after));
    NoLossIsHeld(TokensOf(json), read);
  }
}
