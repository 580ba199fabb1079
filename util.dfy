/** Arithmetic helpers of the trading agent: decimal rounding, stop-price offsets, side reversal. */
module Util {
  import opened Types

  /** 10^n for a natural n. */
  function PowNat(n: nat): (r: real)
    ensures r >= 1.0
  {
    if n == 0 then 1.0 else 10.0 * PowNat(n - 1)
  }

  /** math.Pow(10, d), exact, for any integer number of digits. */
  function Pow10(d: int): (r: real)
    ensures r > 0.0
  {
    if d >= 0 then PowNat(d) else 1.0 / PowNat(-d)
  }

  /** math.Round: the nearest integer, with halves rounded away from zero. */
  function RoundHalfAway(x: real): (k: int)
    ensures x - 0.5 <= k as real <= x + 0.5
    ensures x >= 0.0 ==> x - 0.5 < k as real
    ensures x < 0.0 ==> k as real < x + 0.5
  {
    if x >= 0.0 then (x + 0.5).Floor else -((-x + 0.5).Floor)
  }

  lemma RoundOfWhole(k: int)
    ensures RoundHalfAway(k as real) == k
  {
  }

  /** `x` is a whole multiple of 1/pow. */
  predicate OnGrid(x: real, pow: real) {
    (x * pow).Floor as real == x * pow
  }

  lemma DivMulCancel(a: real, p: real)
    requires p != 0.0
    ensures (a / p) * p == a
  {
  }

  lemma MulDivCancel(x: real, p: real)
    requires p != 0.0
    ensures (x * p) / p == x
  {
  }

  lemma DivAdd(a: real, b: real, p: real)
    requires p != 0.0
    ensures (a + b) / p == a / p + b / p
  {
  }

  lemma DivMono(a: real, b: real, p: real)
    requires p > 0.0 && a <= b
    ensures a / p <= b / p
  {
  }

  lemma WholeFloor(y: real, k: int)
    requires y == k as real
    ensures y.Floor as real == y
  {
  }

  /** k/pow scales back to k and, when k is within half of x*pow, lies within half a step of x. */
  lemma RoundToFacts(x: real, pow: real, k: int)
    requires pow > 0.0
    requires x * pow - 0.5 <= k as real <= x * pow + 0.5
    ensures (k as real / pow) * pow == k as real
    ensures x - 0.5 / pow <= k as real / pow <= x + 0.5 / pow
  {
    DivMulCancel(k as real, pow);
    DivMono(x * pow - 0.5, k as real, pow);
    DivMono(k as real, x * pow + 0.5, pow);
    DivAdd(x * pow, 0.5, pow);
    DivAdd(x * pow, -0.5, pow);
    MulDivCancel(x, pow);
  }

  /** The helper `round(number, pow)`: math.Round(number*pow)/pow. The result scales back to the
      rounded integer and lies within half a step of the input. */
  function RoundTo(x: real, pow: real): (r: real)
    requires pow > 0.0
    ensures r * pow == RoundHalfAway(x * pow) as real
    ensures x - 0.5 / pow <= r <= x + 0.5 / pow
  {
    var k := RoundHalfAway(x * pow);
    RoundToFacts(x, pow, k);
    k as real / pow
  }

  /** A rounded value lies on the grid. */
  lemma RoundToOnGrid(x: real, pow: real)
    requires pow > 0.0
    ensures OnGrid(RoundTo(x, pow), pow)
  {
    var r := RoundTo(x, pow);
    WholeFloor(r * pow, RoundHalfAway(x * pow));
  }

  /** Rounding leaves a value already on the grid unchanged. */
  lemma RoundToFixesGrid(y: real, pow: real)
    requires pow > 0.0 && OnGrid(y, pow)
    ensures RoundTo(y, pow) == y
  {
    var m := (y * pow).Floor;
    RoundOfWhole(m);
    var r := RoundTo(y, pow);
    assert r * pow == m as real;
    MulDivCancel(y, pow);
    MulDivCancel(r, pow);
  }

  /** NormalizeDouble rounds to `d` decimal digits: the result lies on the 10^-d grid, within half
      a step of the input. */
  function NormalizeDouble(x: real, d: int): (r: real)
    ensures OnGrid(r, Pow10(d))
    ensures x - 0.5 / Pow10(d) <= r <= x + 0.5 / Pow10(d)
  {
    RoundToOnGrid(x, Pow10(d));
    RoundTo(x, Pow10(d))
  }

  /** 10^n as an integer. */
  function PowInt(n: nat): (r: int)
    ensures r >= 1
  {
    if n == 0 then 1 else 10 * PowInt(n - 1)
  }

  lemma {:induction false} PowNatIsInt(n: nat)
    ensures PowNat(n) == PowInt(n) as real
  {
    if n > 0 {
      PowNatIsInt(n - 1);
    }
  }

  lemma WholeOnGrid(k: int, m: int, pow: real)
    requires pow == m as real && pow > 0.0
    ensures OnGrid(k as real, pow)
  {
    assert k as real * pow == (k * m) as real;
    WholeFloor(k as real * pow, k * m);
  }

  /** With a non-negative number of digits, every whole number is already rounded. */
  lemma WholeIsNormal(k: int, d: nat)
    ensures NormalizeDouble(k as real, d) == k as real
  {
    PowNatIsInt(d);
    WholeOnGrid(k, PowInt(d), Pow10(d));
    RoundToFixesGrid(k as real, Pow10(d));
  }

  /** NormalizeDouble is idempotent (exact arithmetic). */
  lemma NormalizeIdempotent(x: real, d: int)
    ensures NormalizeDouble(NormalizeDouble(x, d), d) == NormalizeDouble(x, d)
  {
    RoundToFixesGrid(NormalizeDouble(x, d), Pow10(d));
  }

  /** A zero gap means the default gap of 500 points. */
  function EffectiveGap(gap: real): (g: real)
    ensures gap != 0.0 ==> g == gap
    ensures g != 0.0
  {
    if gap == 0.0 then 500.0 else gap
  }

  lemma DivSub(a: real, b: real, p: real)
    requires p != 0.0
    ensures (a - b) / p == a / p - b / p
  {
  }

  /** A whole number of grid steps added to a value on the grid: no rounding happens. */
  lemma RoundToWholeShift(x: real, g: real, pow: real)
    requires pow > 0.0 && OnGrid(x, pow) && g.Floor as real == g
    ensures RoundTo((x * pow + g) / pow, pow) == (x * pow + g) / pow
    ensures RoundTo((x * pow - g) / pow, pow) == (x * pow - g) / pow
  {
    var up := (x * pow + g) / pow;
    DivMulCancel(x * pow + g, pow);
    WholeFloor(up * pow, (x * pow).Floor + g.Floor);
    RoundToFixesGrid(up, pow);
    var down := (x * pow - g) / pow;
    DivMulCancel(x * pow - g, pow);
    WholeFloor(down * pow, (x * pow).Floor - g.Floor);
    RoundToFixesGrid(down, pow);
  }

  /** `round((x*pow + g)/pow, pow)`: `x` moved up by `g` steps of size 1/pow, then rounded. */
  function ShiftUp(x: real, g: real, pow: real): (r: real)
    requires pow > 0.0
    ensures OnGrid(r, pow)
    ensures x + g / pow - 0.5 / pow <= r <= x + g / pow + 0.5 / pow
    ensures OnGrid(x, pow) && g.Floor as real == g ==> r == x + g / pow
  {
    DivAdd(x * pow, g, pow);
    MulDivCancel(x, pow);
    RoundToOnGrid((x * pow + g) / pow, pow);
    if OnGrid(x, pow) && g.Floor as real == g then
      RoundToWholeShift(x, g, pow);
      RoundTo((x * pow + g) / pow, pow)
    else
      RoundTo((x * pow + g) / pow, pow)
  }

  /** `round((x*pow - g)/pow, pow)`: `x` moved down by `g` steps of size 1/pow, then rounded. */
  function ShiftDown(x: real, g: real, pow: real): (r: real)
    requires pow > 0.0
    ensures OnGrid(r, pow)
    ensures x - g / pow - 0.5 / pow <= r <= x - g / pow + 0.5 / pow
    ensures OnGrid(x, pow) && g.Floor as real == g ==> r == x - g / pow
  {
    DivSub(x * pow, g, pow);
    MulDivCancel(x, pow);
    RoundToOnGrid((x * pow - g) / pow, pow);
    if OnGrid(x, pow) && g.Floor as real == g then
      RoundToWholeShift(x, g, pow);
      RoundTo((x * pow - g) / pow, pow)
    else
      RoundTo((x * pow - g) / pow, pow)
  }

  /** CalcSLStop: the stop-loss stop price, `gap` points (10^-digits each) past `sl`, above it for a
      BUY and below it otherwise, rounded to `digits` decimals. */
  function CalcSLStop(side: Side, sl: real, gap: real, digits: int): (r: real)
    ensures OnGrid(r, Pow10(digits))
    ensures side == Buy ==> sl + EffectiveGap(gap) / Pow10(digits) - 0.5 / Pow10(digits) <= r
                                <= sl + EffectiveGap(gap) / Pow10(digits) + 0.5 / Pow10(digits)
    ensures side != Buy ==> sl - EffectiveGap(gap) / Pow10(digits) - 0.5 / Pow10(digits) <= r
                                 <= sl - EffectiveGap(gap) / Pow10(digits) + 0.5 / Pow10(digits)
  {
    if side == Buy then ShiftUp(sl, EffectiveGap(gap), Pow10(digits))
    else ShiftDown(sl, EffectiveGap(gap), Pow10(digits))
  }

  /** CalcTPStop: the mirror of CalcSLStop, below `tp` for a BUY and above it otherwise. */
  function CalcTPStop(side: Side, tp: real, gap: real, digits: int): (r: real)
    ensures OnGrid(r, Pow10(digits))
    ensures side == Buy ==> tp - EffectiveGap(gap) / Pow10(digits) - 0.5 / Pow10(digits) <= r
                                <= tp - EffectiveGap(gap) / Pow10(digits) + 0.5 / Pow10(digits)
    ensures side != Buy ==> tp + EffectiveGap(gap) / Pow10(digits) - 0.5 / Pow10(digits) <= r
                                 <= tp + EffectiveGap(gap) / Pow10(digits) + 0.5 / Pow10(digits)
  {
    if side == Buy then ShiftDown(tp, EffectiveGap(gap), Pow10(digits))
    else ShiftUp(tp, EffectiveGap(gap), Pow10(digits))
  }

  /** For a price on the grid and a whole-point gap, the stop prices are exact: the stop loss of a
      BUY sits `gap` points above the price and that of a SELL as far below, the take-profit stops
      mirror them, and the two stop-loss stops enclose the price. */
  lemma StopPricesExact(price: real, gap: int, digits: int)
    requires OnGrid(price, Pow10(digits))
    requires gap >= 0
    ensures CalcSLStop(Buy, price, gap as real, digits) == price + EffectiveGap(gap as real) / Pow10(digits)
    ensures CalcSLStop(Sell, price, gap as real, digits) == price - EffectiveGap(gap as real) / Pow10(digits)
    ensures CalcTPStop(Buy, price, gap as real, digits) == price - EffectiveGap(gap as real) / Pow10(digits)
    ensures CalcTPStop(Sell, price, gap as real, digits) == price + EffectiveGap(gap as real) / Pow10(digits)
    ensures CalcSLStop(Sell, price, gap as real, digits) < price < CalcSLStop(Buy, price, gap as real, digits)
  {
    var g := EffectiveGap(gap as real);
    assert g.Floor as real == g;
    assert g / Pow10(digits) > 0.0;
  }

  /** Reverse returns the opposite side; anything that is not BUY maps to BUY. */
  function Reverse(side: Side): (r: Side)
    ensures r != NoSide
    ensures side != NoSide ==> r != side
    ensures side == NoSide ==> r == Buy
  {
    if side == Buy then Sell else Buy
  }

  /** Reverse is an involution on {BUY, SELL}. */
  lemma ReverseInvolution(side: Side)
    requires side != NoSide
    ensures Reverse(Reverse(side)) == side
  {
  }

  function MaxReal(a: real, b: real): (r: real)
    ensures r >= a && r >= b && (r == a || r == b)
  {
    if b > a then b else a
  }

  /** Go's int64 division for a positive divisor: truncates toward zero. */
  function TruncDiv(a: int, b: int): (q: int)
    requires b > 0
    ensures a >= 0 ==> q * b <= a < q * b + b
    ensures a < 0 ==> q * b - b < a <= q * b
  {
    if a >= 0 then a / b else -((-a) / b)
  }
}
