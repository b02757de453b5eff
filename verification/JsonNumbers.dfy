/** Which integer a number's text denotes, told by its sign, digits, fraction and exponent. */
module JsonNumbers {
  import opened Prelude
  import opened Utf8
  import opened Json
  import Decimal

  // ----- reading the parts -----

  lemma {:induction false} DigitsRead(ds: seq<Decimal.Digit>, t: Text)
    requires t == [] || !IsDigit(t[0])
    ensures DigitRun(DigitUnits(ds) + t) == Run(ds, t)
  {
    if ds == [] {
      assert DigitUnits(ds) + t == t;
    } else {
      DigitsRead(ds[1..], t);
      RunOfDigit(ds[0], DigitUnits(ds[1..]) + t);
      Assoc([ds[0] as Unit + 48], DigitUnits(ds[1..]), t);
      assert ds == [ds[0]] + ds[1..];
    }
  }

  /** A point and digits, if there are any. */
  function FractionText(fraction: seq<Decimal.Digit>): Text { if fraction == [] then [] else [46] + DigitUnits(fraction) }

  /** Nothing, or the letter e, a minus sign if need be, and digits. */
  function PowerText(power: Power): Text {
    if power.digits == [] then [] else if power.negative then [101] + ([45] + DigitUnits(power.digits)) else [101] + DigitUnits(power.digits)
  }

  function NumberText(n: Number): Text {
    (if n.negative then [45] else []) + (DigitUnits(n.whole) + (FractionText(n.fraction) + PowerText(n.power)))
  }

  predicate GoodNumber(n: Number) {
    n.whole != [] && (|n.whole| > 1 ==> n.whole[0] != 0) && (n.power.digits == [] ==> !n.power.negative)
  }

  lemma FirstDigit(ds: seq<Decimal.Digit>)
    requires ds != []
    ensures DigitUnits(ds) != [] && IsDigit(DigitUnits(ds)[0]) && DigitUnits(ds)[0] != MINUS && DigitUnits(ds)[0] != 43
  {
  }

  lemma PowerRead(power: Power)
    requires power.digits == [] ==> !power.negative
    ensures Exponent(PowerText(power)) == Some(power)
    ensures PowerText(power) == [] || (!IsDigit(PowerText(power)[0]) && PowerText(power)[0] != DOT)
  {
    var t, ds := PowerText(power), DigitUnits(power.digits);
    if power.digits != [] {
      FirstDigit(power.digits);
      DigitsRead(power.digits, []);
      assert ds + [] == ds;
      if power.negative { assert t[0] == 101 && t[1] == MINUS && t[2..] == ds; } else { assert t[0] == 101 && t[1..] == ds; }
    }
  }

  lemma FractionRead(fraction: seq<Decimal.Digit>, t: Text)
    requires t == [] || (!IsDigit(t[0]) && t[0] != DOT)
    ensures Fraction(FractionText(fraction) + t) == Some(Run(fraction, t))
    ensures FractionText(fraction) + t == [] || !IsDigit((FractionText(fraction) + t)[0])
  {
    if fraction == [] {
      assert FractionText(fraction) + t == t;
    } else {
      DigitsRead(fraction, t);
      Assoc([DOT], DigitUnits(fraction), t);
      assert (FractionText(fraction) + t)[1..] == DigitUnits(fraction) + t;
    }
  }

  /** A number's text has the parts it was made of. */
  lemma NumberRead(n: Number)
    requires GoodNumber(n)
    ensures NumberParts(NumberText(n)) == Some(n)
  {
    var more := FractionText(n.fraction) + PowerText(n.power);
    var body := DigitUnits(n.whole) + more;
    PowerRead(n.power);
    FractionRead(n.fraction, PowerText(n.power));
    DigitsRead(n.whole, more);
    FirstDigit(n.whole);
    assert body[0] == DigitUnits(n.whole)[0];
    if n.negative { assert NumberText(n)[0] == MINUS && NumberText(n)[1..] == body; } else { assert NumberText(n) == body; }
  }

  // ----- what they denote -----

  /** The digits without the point, and how many places the point stands to the right of their end. */
  function Mantissa(n: Number): int {
    var size: int := Decimal.FromDigits(n.whole + n.fraction);
    if n.negative then -size else size
  }

  function Places(n: Number): int {
    var exponent: int := Decimal.FromDigits(n.power.digits);
    (if n.power.negative then -exponent else exponent) - |n.fraction|
  }

  lemma Product(k: int, p: int)
    requires p > 0
    ensures k >= 1 ==> k * p >= p
    ensures k < 0 ==> k * p < 0
  {
  }

  lemma Quotient(m: int, p: int, v: int, q: int, r: int)
    requires p > 0 && m == q * p + r && 0 <= r < p
    ensures r == 0 && q == v <==> v * p == m
  {
    if v * p == m {
      assert (v - q) * p == r;
      Product(v - q, p);
    }
  }

  lemma Divides(m: int, p: int, v: int)
    requires p > 0
    ensures m % p == 0 && m / p == v <==> v * p == m
  {
    Quotient(m, p, v, m / p, m % p);
  }

  lemma ScaledIff(m: int, k: int, v: int)
    ensures Scaled(m, k) == Some(v) <==> if k >= 0 then v == m * Decimal.Pow10(k) else v * Decimal.Pow10(-k) == m
  {
    if k < 0 { Divides(m, Decimal.Pow10(-k), v); }
  }

  lemma PartsDenote(n: Number)
    ensures PartsValue(n) == Scaled(Mantissa(n), Places(n))
  {
  }

  /** The text of a number denotes an integer exactly when that times a power of ten is its digits, or they that times one. */
  lemma IntegerIff(n: Number, v: int)
    requires GoodNumber(n)
    ensures IntegerValue(NumberText(n)) == Some(v) <==>
      if Places(n) >= 0 then v == Mantissa(n) * Decimal.Pow10(Places(n)) else v * Decimal.Pow10(-Places(n)) == Mantissa(n)
  {
    NumberRead(n);
    PartsDenote(n);
    ScaledIff(Mantissa(n), Places(n), v);
  }

  lemma NonZero(m: int, p: int)
    requires p >= 1
    ensures m * p == 0 <==> m == 0
  {
    if m >= 1 { Product(m, p); } else if m < 0 { Product(m, p); }
  }

  /** Zero is denoted exactly by digits that are all zero, whatever the point and the exponent. */
  lemma ZeroIff(n: Number)
    requires GoodNumber(n)
    ensures IntegerValue(NumberText(n)) == Some(0) <==> Mantissa(n) == 0
  {
    IntegerIff(n, 0);
    if Places(n) >= 0 { NonZero(Mantissa(n), Decimal.Pow10(Places(n))); }
  }
}
