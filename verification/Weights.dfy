/**
 Weights and totals as exact decimals: conversion to kilograms, rounding half up, the rendered text, and
 the price of a weight. Amounts are rationals, so they are reals here.
 */
module Weights {
  import opened Prelude

  datatype Unit = Kilogram | Gram | Pound | Ton

  /** Decimal.quantize with ROUND_HALF_UP of a value that is not negative, counted in 1/scale. */
  function Steps(x: real, scale: int): int
    requires scale > 0
  {
    (x * scale as real + 0.5).Floor
  }

  function Quantize(x: real, scale: int): real
    requires scale > 0
  {
    Steps(x, scale) as real / scale as real
  }

  /** The amount in kilograms, before rounding. */
  function Exact(amount: real, unit: Unit): real {
    match unit
    case Kilogram => amount
    case Gram => amount / 1000.0
    case Pound => amount * 0.45359237
    case Ton => amount * 1000.0
  }

  /** Thousandths of a kilogram, when the amount is positive and not above a million kilograms. */
  function Thousandths(amount: real, unit: Unit): Option<int> {
    if amount <= 0.0 then None
    else
      var n := Steps(Exact(amount, unit), 1000);
      if n > 1000000000 then None else Some(n)
  }

  /** kg is a whole number of grams, and the nearest one, a tie going up, to the amount in this unit. */
  ghost predicate Converts(amount: real, unit: Unit, kg: real) {
    var grams := kg * 1000.0;
    && grams == grams.Floor as real
    && match unit
       case Kilogram => grams - 0.5 <= amount * 1000.0 < grams + 0.5
       case Gram => grams - 0.5 <= amount < grams + 0.5
       case Pound => grams - 0.5 <= amount * 453.59237 < grams + 0.5
       case Ton => grams - 0.5 <= amount * 1000000.0 < grams + 0.5
  }

  lemma ConversionIs(amount: real, unit: Unit)
    ensures Thousandths(amount, unit).Some? ==>
              Converts(amount, unit, Thousandths(amount, unit).value as real / 1000.0)
    ensures Thousandths(amount, unit).None?
       <==> amount <= 0.0 || 1000000.0005 <= amount * match unit
                                                      case Gram => 0.001
                                                      case Pound => 0.45359237
                                                      case Ton => 1000.0
                                                      case Kilogram => 1.0
  {
    QuantizeIsNearest(Exact(amount, unit), 1000);
    if Thousandths(amount, unit).Some? {
      var n := Thousandths(amount, unit).value;
      assert (n as real / 1000.0) * 1000.0 == n as real;
    }
  }

  /** The value of `extract_weight_kg` for a number found with this unit; without a unit it is kilograms. */
  method ExtractWeightKg(value: real, unit: Option<Unit>) returns (kg: Option<real>)
    ensures kg == match Thousandths(value, if unit.Some? then unit.value else Kilogram)
                  case None => None
                  case Some(n) => Some(n as real / 1000.0)
    ensures kg.Some? ==> Converts(value, if unit.Some? then unit.value else Kilogram, kg.value)
    ensures kg.None? <==> value <= 0.0 || 1000000.0005 <= value * (match unit case Some(Gram) => 0.001
                                                                              case Some(Pound) => 0.45359237
                                                                              case Some(Ton) => 1000.0
                                                                              case _ => 1.0)
  {
    ConversionIs(value, if unit.Some? then unit.value else Kilogram);
    if value <= 0.0 { return None; }
    var amount := value;
    if unit == Some(Gram) { amount := amount / 1000.0; }
    else if unit == Some(Pound) { amount := amount * 0.45359237; }
    else if unit == Some(Ton) { amount := amount * 1000.0; }
    amount := Quantize(amount, 1000);
    if amount > 1000000.0 { return None; }
    return Some(amount);
  }

  /** `_weight_to_kg`: the same, but an unknown unit name, None here, is refused. */
  method WeightToKg(value: real, unit: Option<Unit>) returns (kg: Option<real>)
    ensures kg == if unit.None? then None
                  else match Thousandths(value, unit.value)
                       case None => None
                       case Some(n) => Some(n as real / 1000.0)
    ensures kg.Some? ==> unit.Some? && Converts(value, unit.value, kg.value)
  {
    if unit.Some? { ConversionIs(value, unit.value); }
    if value <= 0.0 { return None; }
    var amount := value;
    match unit {
      case None => return None;
      case Some(Gram) => amount := amount / 1000.0;
      case Some(Pound) => amount := amount * 0.45359237;
      case Some(Ton) => amount := amount * 1000.0;
      case Some(Kilogram) =>
    }
    amount := Quantize(amount, 1000);
    if amount > 1000000.0 { return None; }
    return Some(amount);
  }

  // ---------- Rounding ----------

  /** Half up: the result is within half a step, and a tie goes up. */
  lemma QuantizeIsNearest(x: real, scale: int)
    requires scale > 0
    ensures Steps(x, scale) as real - 0.5 <= x * scale as real < Steps(x, scale) as real + 0.5
  {}

  lemma QuantizeMonotone(x: real, y: real, scale: int)
    requires scale > 0 && x <= y
    ensures Steps(x, scale) <= Steps(y, scale)
  {
    Scale(x, y, scale as real);
  }

  lemma Scale(x: real, y: real, r: real)
    requires x <= y && r >= 0.0
    ensures x * r <= y * r
  {}

  /**
   A converted weight is a whole number of grams in [0, 1000 t], within half a gram of the exact weight;
   it is zero exactly below half a gram.
   */
  lemma KilogramsAreGrams(amount: real, unit: Unit)
    requires Thousandths(amount, unit).Some?
    ensures var n := Thousandths(amount, unit).value;
            && 0 <= n <= 1000000000
            && n as real - 0.5 <= Exact(amount, unit) * 1000.0 < n as real + 0.5
            && (n == 0 <==> Exact(amount, unit) < 0.0005)
  {
    QuantizeIsNearest(Exact(amount, unit), 1000);
    ExactPositive(amount, unit);
  }

  lemma ExactPositive(amount: real, unit: Unit)
    requires amount > 0.0
    ensures Exact(amount, unit) > 0.0
  {}

  lemma ExactMonotone(a: real, b: real, unit: Unit)
    requires a <= b
    ensures Exact(a, unit) <= Exact(b, unit)
  {}

  // ---------- Prices ----------

  /** `_decimal` on a converted weight: zero is refused. */
  function Priceable(amount: real, unit: Unit): bool {
    Thousandths(amount, unit).Some? && Thousandths(amount, unit).value > 0
  }

  /** Hundredths of the currency: the total of `_parse_per_kg_rates` for a rate that is not negative. */
  function Cents(rate: real, thousandths: int): int {
    Steps(rate * (thousandths as real / 1000.0), 100)
  }

  /** A weight is refused exactly when it is not positive, below half a gram, or rounds above 1000 t. */
  lemma RefusedExactly(amount: real, unit: Unit)
    ensures !Priceable(amount, unit)
       <==> amount <= 0.0 || Exact(amount, unit) < 0.0005 || Exact(amount, unit) >= 1000000.0005
  {
    if amount > 0.0 {
      QuantizeIsNearest(Exact(amount, unit), 1000);
      ExactPositive(amount, unit);
    }
  }

  /** The two roundings together move a total by at most half a cent and half a gram's price. */
  lemma QuotedTotalBound(amount: real, unit: Unit, rate: real)
    requires Priceable(amount, unit) && rate >= 0.0
    ensures -(0.005 + 0.0005 * rate)
         <= Cents(rate, Thousandths(amount, unit).value) as real / 100.0 - rate * Exact(amount, unit)
         <= 0.005 + 0.0005 * rate
  {
    KilogramsAreGrams(amount, unit);
    var n := Thousandths(amount, unit).value;
    var w, e := n as real / 1000.0, Exact(amount, unit);
    TotalBound(n, w, e, rate, rate * w, rate * e, 0.0005 * rate);
  }

  lemma TotalBound(n: int, w: real, e: real, rate: real, p: real, q: real, h: real)
    requires w == n as real / 1000.0 && e - 0.0005 <= w <= e + 0.0005 && rate >= 0.0
    requires p == rate * w && q == rate * e && h == 0.0005 * rate
    ensures -(0.005 + h) <= Cents(rate, n) as real / 100.0 - q <= 0.005 + h
  {
    Spread(e, w, rate, p, q, h);
    CentsNearest(rate, n, w, p);
    TwoErrors(Cents(rate, n) as real, p, q, h);
  }

  lemma CentsNearest(rate: real, n: int, w: real, p: real)
    requires w == n as real / 1000.0 && p == rate * w
    ensures Cents(rate, n) as real - 0.5 <= p * 100.0 <= Cents(rate, n) as real + 0.5
  {
    assert Cents(rate, n) == Steps(p, 100) == (p * 100.0 + 0.5).Floor;
  }

  lemma TwoErrors(cents: real, p: real, q: real, h: real)
    requires cents - 0.5 <= p * 100.0 <= cents + 0.5 && -h <= p - q <= h
    ensures -(0.005 + h) <= cents / 100.0 - q <= 0.005 + h
  {}

  lemma Spread(e: real, w: real, rate: real, p: real, q: real, h: real)
    requires e - 0.0005 <= w <= e + 0.0005 && rate >= 0.0
    requires p == rate * w && q == rate * e && h == 0.0005 * rate
    ensures -h <= p - q <= h
  {
    ScaleBetween(w - e, 0.0005, rate, p - q, h);
  }

  lemma ScaleBetween(d: real, bound: real, rate: real, scaled: real, h: real)
    requires -bound <= d <= bound && rate >= 0.0
    requires scaled == rate * d && h == bound * rate
    ensures -h <= scaled <= h
  {
    Scale(d, bound, rate);
    Scale(-bound, d, rate);
    assert -bound * rate == -(bound * rate);
    assert d * rate == scaled;
  }

  /** More weight never costs less. */
  lemma QuotedTotalMonotone(a: real, b: real, unit: Unit, rate: real)
    requires a <= b && Priceable(a, unit) && Priceable(b, unit) && rate >= 0.0
    ensures Cents(rate, Thousandths(a, unit).value) <= Cents(rate, Thousandths(b, unit).value)
  {
    ExactMonotone(a, b, unit);
    QuantizeMonotone(Exact(a, unit), Exact(b, unit), 1000);
    var v, w := Thousandths(a, unit).value as real / 1000.0, Thousandths(b, unit).value as real / 1000.0;
    Scale(v, w, rate);
    QuantizeMonotone(rate * v, rate * w, 100);
  }

  // ---------- The rendered weight ----------

  function DigitChar(d: nat): char
    requires d < 10
  {
    '0' + d as char
  }

  function Digits(n: nat): string {
    (if n < 10 then [] else Digits(n / 10)) + [DigitChar(n % 10)]
  }

  function RStripZeros(s: string): string {
    if s != [] && s[|s| - 1] == '0' then RStripZeros(s[..|s| - 1]) else s
  }

  /** `_decimal_text` of a number of thousandths: no trailing zeros and no bare point. */
  function DecimalText(n: nat): string {
    PartsText(n / 1000, n % 1000)
  }

  function PartsText(m: nat, f: nat): string
    requires f < 1000
  {
    if f == 0 then Digits(m) else Digits(m) + (['.'] + Fraction(f))
  }

  function Fraction(f: nat): string
    requires f < 1000
  {
    RStripZeros([DigitChar(f / 100), DigitChar(f / 10 % 10), DigitChar(f % 10)])
  }

  /** Such texts in full: no bare point, no trailing zeros, zeros after the point kept. */
  lemma DecimalTexts()
    ensures DecimalText(3000) == "3" && DecimalText(1500) == "1.5" && DecimalText(12050) == "12.05"
    ensures DecimalText(7) == "0.007" && DecimalText(120) == "0.12"
  {
    StripThree(5, 0, 0);
    StripThree(0, 5, 0);
    StripThree(0, 0, 7);
    StripThree(1, 2, 0);
    assert DigitChar(0) == '0' && DigitChar(1) == '1' && DigitChar(2) == '2' && DigitChar(3) == '3';
    assert DigitChar(5) == '5' && DigitChar(7) == '7';
    assert Digits(3) == "3" && Digits(1) == "1" && Digits(0) == "0";
    assert Digits(12) == Digits(1) + "2" == "12";
  }

  predicate AllDigits(s: string) {
    forall i :: 0 <= i < |s| ==> '0' <= s[i] <= '9'
  }

  function Number(s: string): nat
    requires AllDigits(s)
  {
    if s == [] then 0 else 10 * Number(s[..|s| - 1]) + (s[|s| - 1] as nat - '0' as nat)
  }

  lemma {:induction false} DigitsRead(n: nat)
    ensures AllDigits(Digits(n)) && Number(Digits(n)) == n && Digits(n) != []
  {
    if n >= 10 { DigitsRead(n / 10); }
    var s := Digits(n);
    assert s[..|s| - 1] == if n < 10 then [] else Digits(n / 10);
  }

  /** Where the decimal point is, or the end. */
  function PointAt(s: string): (k: nat)
    ensures k <= |s|
  {
    if s == [] || s[0] == '.' then 0 else 1 + PointAt(s[1..])
  }

  /** Decimal(text), in thousandths, for a text with at most three decimals. */
  function ReadThousandths(s: string): Option<nat> {
    var k := PointAt(s);
    ReadParts(s[..k], if k == |s| then [] else s[k + 1..])
  }

  function ReadParts(whole: string, part: string): Option<nat> {
    if !AllDigits(whole) || !AllDigits(part) || |part| > 3 || whole == [] then None
    else Some(1000 * Number(whole) + Padded(part))
  }

  /** The fraction's digits as thousandths. */
  function Padded(part: string): nat
    requires AllDigits(part)
  {
    if |part| == 1 then 100 * Number(part) else if |part| == 2 then 10 * Number(part) else Number(part)
  }

  lemma {:induction false} PointAfterDigits(whole: string, rest: string)
    requires AllDigits(whole) && (rest == [] || rest[0] == '.')
    ensures PointAt(whole + rest) == |whole|
  {
    if whole != [] {
      assert (whole + rest)[1..] == whole[1..] + rest;
      PointAfterDigits(whole[1..], rest);
    } else {
      assert whole + rest == rest;
    }
  }

  lemma ThreeDigits(a: nat, b: nat, c: nat)
    requires a < 10 && b < 10 && c < 10
    ensures AllDigits([DigitChar(a)]) && Number([DigitChar(a)]) == a
    ensures AllDigits([DigitChar(a), DigitChar(b)]) && Number([DigitChar(a), DigitChar(b)]) == 10 * a + b
    ensures AllDigits([DigitChar(a), DigitChar(b), DigitChar(c)])
    ensures Number([DigitChar(a), DigitChar(b), DigitChar(c)]) == 100 * a + 10 * b + c
  {
    var x, y, z := DigitChar(a), DigitChar(b), DigitChar(c);
    assert [x, y, z][..2] == [x, y] && [x, y][..1] == [x] && [x][..0] == [];
  }

  /** The fraction's digits without trailing zeros keep its value. */
  lemma FractionRead(f: nat)
    requires 0 < f < 1000
    ensures AllDigits(Fraction(f)) && 1 <= |Fraction(f)| <= 3 && Padded(Fraction(f)) == f
  {
    var a, b, c := f / 100, f / 10 % 10, f % 10;
    assert f == 100 * a + 10 * b + c;
    ThreeDigits(a, b, c);
    StripThree(a, b, c);
  }

  lemma StripThree(a: nat, b: nat, c: nat)
    requires a < 10 && b < 10 && c < 10 && (a > 0 || b > 0 || c > 0)
    ensures RStripZeros([DigitChar(a), DigitChar(b), DigitChar(c)])
         == if c > 0 then [DigitChar(a), DigitChar(b), DigitChar(c)]
            else if b > 0 then [DigitChar(a), DigitChar(b)]
            else [DigitChar(a)]
  {
    var x, y, z := DigitChar(a), DigitChar(b), DigitChar(c);
    assert [x, y, z][..2] == [x, y] && [x, y][..1] == [x] && [x][..0] == [];
    assert (x == '0' <==> a == 0) && (y == '0' <==> b == 0) && (z == '0' <==> c == 0);
    assert a > 0 ==> RStripZeros([x]) == [x];
    assert RStripZeros([x, y]) == if b > 0 then [x, y] else RStripZeros([x]);
    assert RStripZeros([x, y, z]) == if c > 0 then [x, y, z] else RStripZeros([x, y]);
  }

  lemma ReadJoined(whole: string, part: string)
    requires AllDigits(whole) && whole != [] && AllDigits(part) && |part| <= 3
    ensures ReadThousandths(whole + (['.'] + part)) == ReadParts(whole, part)
  {
    PointAfterDigits(whole, ['.'] + part);
    var s := whole + (['.'] + part);
    assert s[..|whole|] == whole;
    assert s[|whole| + 1..] == part;
  }

  lemma ReadWhole(whole: string)
    requires AllDigits(whole) && whole != []
    ensures ReadThousandths(whole) == ReadParts(whole, [])
  {
    assert whole + [] == whole;
    PointAfterDigits(whole, []);
    assert whole[..|whole|] == whole;
  }

  lemma PartsRoundTrip(m: nat, f: nat)
    requires f < 1000
    ensures ReadThousandths(PartsText(m, f)) == Some(1000 * m + f)
  {
    DigitsRead(m);
    if f == 0 {
      ReadWhole(Digits(m));
      PartsValue(Digits(m), [], m, 0);
    } else {
      FractionRead(f);
      ReadJoined(Digits(m), Fraction(f));
      PartsValue(Digits(m), Fraction(f), m, f);
    }
  }

  lemma PartsValue(whole: string, part: string, m: nat, f: nat)
    requires AllDigits(whole) && AllDigits(part) && whole != [] && |part| <= 3
    requires Number(whole) == m && Padded(part) == f
    ensures ReadParts(whole, part) == Some(1000 * m + f)
  {}

  /** The text a converter renders is read back, by the pricing side, as the very same weight. */
  lemma RenderedWeightRoundTrip(n: nat)
    ensures ReadThousandths(DecimalText(n)) == Some(n)
  {
    PartsRoundTrip(n / 1000, n % 1000);
  }
}
