/**
 * The decimal arithmetic the pricing code relies on.  Addition, subtraction and
 * multiplication of decimals are exact, so a decimal is modelled by its value, a
 * `real`.  Only division and rounding lose digits: division keeps 16 places,
 * rounding to a price keeps 8, and both round half away from zero.
 */
module Decimals {

  const DIVISION_SCALE: real := 10000000000000000.0
  const PRICE_SCALE: real := 100000000.0

  /** Half a unit in the last place kept by a division. */
  const HALF_DIVISION_ULP: real := 0.5 / DIVISION_SCALE

  /** Half a unit in the last place kept by a rounded price. */
  const HALF_PRICE_ULP: real := 0.5 / PRICE_SCALE

  function Abs(x: real): real {
    if x < 0.0 then -x else x
  }

  /** Nearest integer, ties away from zero. */
  function RoundHalfAway(x: real): int {
    if x >= 0.0 then (x + 0.5).Floor else -((0.5 - x).Floor)
  }

  /** Integer part, truncating toward zero. */
  function Truncate(x: real): int {
    if x >= 0.0 then x.Floor else -((-x).Floor)
  }

  function RoundAt(x: real, scale: real): real
    requires scale > 0.0
  {
    RoundHalfAway(x * scale) as real / scale
  }

  /** Quotient rounded to 16 places. */
  function Div(a: real, b: real): real
    requires b != 0.0
  {
    RoundAt(a / b, DIVISION_SCALE)
  }

  /** `round(v, 8)`: scale up, round to an integer, divide the scale out again. */
  function Round8(v: real): real {
    Div(RoundHalfAway(v * PRICE_SCALE) as real, PRICE_SCALE)
  }

  /** x has no digit beyond those that `scale` keeps. */
  predicate OnGrid(x: real, scale: real) {
    (x * scale).Floor as real == x * scale
  }

  // ---------- rounding ----------

  /** The nearest integer, and at a tie the one farther from zero. */
  lemma RoundHalfAwayNearest(x: real)
    ensures Abs(RoundHalfAway(x) as real - x) <= 0.5
    ensures Abs(RoundHalfAway(x) as real - x) == 0.5 ==> Abs(RoundHalfAway(x) as real) > Abs(x)
    ensures x >= 0.0 ==> RoundHalfAway(x) >= 0
    ensures x <= 0.0 ==> RoundHalfAway(x) <= 0
    ensures RoundHalfAway(-x) == -RoundHalfAway(x)
  {
  }

  lemma ScaleUp(x: real, n: real, scale: real)
    requires scale > 0.0
    ensures x * scale / scale == x
    ensures n / scale * scale == n
  {
  }

  lemma RoundAtOnGrid(x: real, scale: real)
    requires scale > 0.0
    ensures OnGrid(RoundAt(x, scale), scale)
  {
    hide OnGrid;
    WholeOnGrid(RoundHalfAway(x * scale), scale);
  }

  lemma WholeOnGrid(n: int, scale: real)
    requires scale > 0.0
    ensures OnGrid(n as real / scale, scale)
  {
    var q := n as real / scale;
    ScaleUp(0.0, n as real, scale);
    assert q * scale == n as real;
  }

  lemma RoundAtError(x: real, scale: real)
    requires scale > 0.0
    ensures Abs(RoundAt(x, scale) - x) <= 0.5 / scale
    ensures OnGrid(RoundAt(x, scale), scale)
  {
    hide RoundHalfAway, Abs, OnGrid;
    RoundAtOnGrid(x, scale);
    RoundHalfAwayNearest(x * scale);
    ScaleUp(x, 0.0, scale);
    QuotientDistance(RoundHalfAway(x * scale) as real, x * scale, scale, 0.5, RoundAt(x, scale), x);
  }

  lemma RoundAtSign(x: real, scale: real)
    requires scale > 0.0
    ensures x >= 0.0 ==> RoundAt(x, scale) >= 0.0
    ensures x <= 0.0 ==> RoundAt(x, scale) <= 0.0
  {
    hide RoundHalfAway;
    RoundHalfAwayNearest(x * scale);
    ProductSign(x, scale);
    QuotientSign(RoundHalfAway(x * scale) as real, scale);
  }

  lemma QuotientDistance(a: real, b: real, scale: real, h: real, q: real, r: real)
    requires scale > 0.0 && Abs(a - b) <= h
    requires q == a / scale && r == b / scale
    ensures Abs(q - r) <= h / scale
  {
    DivideMonotone(a - b, h, scale);
    DivideMonotone(b - a, h, scale);
  }

  lemma ProductSign(x: real, y: real)
    requires y > 0.0
    ensures x >= 0.0 ==> x * y >= 0.0
    ensures x <= 0.0 ==> x * y <= 0.0
  {
  }

  lemma QuotientSign(x: real, y: real)
    requires y > 0.0
    ensures x >= 0.0 ==> x / y >= 0.0
    ensures x <= 0.0 ==> x / y <= 0.0 && -x / y == -(x / y)
  {
  }

  lemma DivideMonotone(x: real, y: real, scale: real)
    requires scale > 0.0 && x <= y
    ensures x / scale <= y / scale
  {
  }

  /** Rounding moves nothing that is already on the grid. */
  lemma RoundAtExact(x: real, scale: real)
    requires scale > 0.0 && OnGrid(x, scale)
    ensures RoundAt(x, scale) == x
  {
    var k := (x * scale).Floor;
    assert RoundHalfAway(k as real) == k;
    ScaleUp(x, k as real, scale);
  }

  // ---------- division and price rounding ----------

  /** A division is off by at most half a unit in the sixteenth place. */
  lemma DivError(a: real, b: real)
    requires b != 0.0
    ensures Abs(Div(a, b) - a / b) <= HALF_DIVISION_ULP
    ensures a / b >= 0.0 ==> Div(a, b) >= 0.0
    ensures a / b <= 0.0 ==> Div(a, b) <= 0.0
  {
    hide RoundAt, Abs;
    RoundAtError(a / b, DIVISION_SCALE);
    RoundAtSign(a / b, DIVISION_SCALE);
  }

  /** A quotient of at most 8 places is not changed by the 16-place division. */
  lemma DivExactOnGrid(a: real, b: real)
    requires b != 0.0 && OnGrid(a / b, PRICE_SCALE)
    ensures Div(a, b) == a / b
  {
    hide OnGrid, RoundAt;
    FinerGrid(a / b);
    RoundAtExact(a / b, DIVISION_SCALE);
  }

  lemma FinerGrid(q: real)
    requires OnGrid(q, PRICE_SCALE)
    ensures OnGrid(q, DIVISION_SCALE)
  {
    var k := (q * PRICE_SCALE).Floor;
    assert q * DIVISION_SCALE == q * PRICE_SCALE * PRICE_SCALE;
    assert q * DIVISION_SCALE == (k * 100000000) as real;
  }

  lemma QuotientOnGrid(n: int, pow: int, m: int)
    requires pow > 0 && pow as real * m as real == DIVISION_SCALE
    ensures Div(n as real, pow as real) == n as real / pow as real
  {
    var q := n as real / pow as real;
    ScaleUp(q, n as real, pow as real);
    assert q * DIVISION_SCALE == q * pow as real * m as real;
    assert q * DIVISION_SCALE == (n * m) as real;
    RoundAtExact(q, DIVISION_SCALE);
  }

  /** Dividing by a power of ten that the 16 places absorb loses nothing. */
  lemma DivByPowerOfTenExact(n: int, pow: int)
    requires pow == 10000 || pow == 100000000
    ensures Div(n as real, pow as real) == n as real / pow as real
  {
    QuotientOnGrid(n, pow, if pow == 10000 then 1000000000000 else 100000000);
  }

  /** `Round8` is a plain rounding to the eighth place: the division inside it is exact. */
  lemma Round8IsRoundAt(v: real)
    ensures Round8(v) == RoundAt(v, PRICE_SCALE)
  {
    DivByPowerOfTenExact(RoundHalfAway(v * PRICE_SCALE), 100000000);
  }

  lemma Round8Error(v: real)
    ensures Abs(Round8(v) - v) <= HALF_PRICE_ULP
    ensures OnGrid(Round8(v), PRICE_SCALE)
    ensures v >= 0.0 ==> Round8(v) >= 0.0
    ensures OnGrid(v, PRICE_SCALE) ==> Round8(v) == v
  {
    hide RoundAt, Round8, Abs, OnGrid;
    Round8IsRoundAt(v);
    RoundAtError(v, PRICE_SCALE);
    RoundAtSign(v, PRICE_SCALE);
    if OnGrid(v, PRICE_SCALE) {
      RoundAtExact(v, PRICE_SCALE);
    }
  }

  /** A tie: exactly half way between two neighbours on the grid. */
  predicate Tie(x: real, scale: real) {
    (x * scale).Floor as real + 0.5 == x * scale
  }

  /**
   * A whole number of grid steps can be taken out of a rounding of a positive
   * sum, except when the rest is a negative tie and the sum is positive: then
   * "away from zero" points in opposite directions for the rest and for the sum.
   */
  lemma RoundShift(k: int, y: real)
    ensures RoundHalfAway(k as real + y) == k + RoundHalfAway(y)
      <==> !(y.Floor as real + 0.5 == y
             && ((y < 0.0 && k as real + y > 0.0) || (y > 0.0 && k as real + y < 0.0)))
  {
    var f := y.Floor;
    assert (k as real + y).Floor == k + f;
    assert (y + 0.5).Floor == if y - f as real >= 0.5 then f + 1 else f;
    assert (k as real + y + 0.5).Floor == k + (y + 0.5).Floor;
    assert (0.5 - y).Floor == if y - f as real <= 0.5 then -f else -f - 1;
    assert (0.5 - (k as real + y)).Floor == -k + (0.5 - y).Floor;
  }
}
