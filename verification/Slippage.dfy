/**
 * The slippage guard of a claim: how far the spot has moved from the locked rate,
 * in basis points, through a rounded division and a truncating 64-bit conversion.
 */
module Slippage {
  import opened Decimals
  import opened Words

  /** Half of a unit in the twelfth place: the error of a deviation in basis points. */
  const DEVIATION_SLACK: real := 0.0000000000005

  const STEPS_PER_BPS: real := 1000000000000.0

  /** The integer part of a decimal as the low 64 bits, read as a signed number. */
  function IntPart(x: real): int {
    (Truncate(x) + TWO_63) % TWO_64 - TWO_63
  }

  /** |base - locked| / locked in basis points, as computed: the quotient is rounded to 16 places. */
  function DeviationBps(base: real, locked: real): real
    requires locked > 0.0
  {
    Abs(Div(base - locked, locked) * 10000.0)
  }

  /** The test that turns a claim down. */
  predicate SlippageExceeded(base: real, locked: real, toleranceBps: int) {
    base > 0.0 && locked > 0.0 && IntPart(DeviationBps(base, locked)) > toleranceBps
  }

  /** The integer part toward zero. */
  lemma TruncatesTowardZero(x: real)
    ensures Abs(Truncate(x) as real) <= Abs(x) < Abs(Truncate(x) as real) + 1.0
    ensures x >= 0.0 ==> Truncate(x) >= 0
    ensures x <= 0.0 ==> Truncate(x) <= 0
  {
  }

  /** The 64-bit conversion keeps the integer part modulo 2^64, and is faithful exactly on the 64-bit range. */
  lemma IntPartExact(x: real)
    ensures -TWO_63 <= IntPart(x) < TWO_63
    ensures (IntPart(x) - Truncate(x)) % TWO_64 == 0
    ensures IntPart(x) == Truncate(x) <==> -TWO_63 <= Truncate(x) < TWO_63
  {
  }

  /** Without a positive spot, or a positive locked rate, nothing is refused. */
  lemma GuardNeedsPositiveRates(base: real, locked: real, tol: int)
    requires base <= 0.0 || locked <= 0.0
    ensures !SlippageExceeded(base, locked, tol)
  {
  }

  /** A non-negative number truncates below a bound exactly when it is below the next integer. */
  lemma TruncateAtMost(x: real, n: int)
    requires x >= 0.0
    ensures Truncate(x) <= n <==> x < n as real + 1.0
  {
  }

  /** The computed deviation is within 0.5e-12 bps of the true one. */
  lemma DeviationError(base: real, locked: real)
    requires locked > 0.0
    ensures Abs(DeviationBps(base, locked) - Abs(base - locked) / locked * 10000.0) <= DEVIATION_SLACK
    ensures DeviationBps(base, locked) >= 0.0
  {
    DivError(base - locked, locked);
    QuotientSign(base - locked, locked);
    var q, d := (base - locked) / locked, Div(base - locked, locked);
    assert Abs(d * 10000.0) == Abs(d) * 10000.0;
    assert Abs(base - locked) / locked == Abs(q);
  }

  /** The computed deviation is a whole number of 1e-12 bps. */
  lemma DeviationOnGrid(base: real, locked: real) returns (k: int)
    requires locked > 0.0
    ensures k >= 0 && DeviationBps(base, locked) == k as real / STEPS_PER_BPS
  {
    var n := RoundHalfAway((base - locked) / locked * DIVISION_SCALE);
    assert Div(base - locked, locked) == n as real / DIVISION_SCALE;
    k := if n >= 0 then n else -n;
  }

  /** Below an integer on the grid means below it by a whole grid step. */
  lemma GridGap(k: int, n: int)
    requires k as real / STEPS_PER_BPS < n as real
    ensures k as real / STEPS_PER_BPS + DEVIATION_SLACK < n as real
  {
    assert k < n * 1000000000000;
  }

  /**
   * Acceptance is exact in spite of the rounded division: an accepted claim is
   * strictly less than tolerance + 1 bps away.  A rejected one is at least that
   * far away, up to 0.5e-12 bps.
   */
  lemma GuardIsExact(base: real, locked: real, tol: int)
    requires base > 0.0 && locked > 0.0
    requires DeviationBps(base, locked) < TWO_63 as real
    ensures !SlippageExceeded(base, locked, tol) ==>
              Abs(base - locked) * 10000.0 < (tol as real + 1.0) * locked
    ensures SlippageExceeded(base, locked, tol) ==>
              Abs(base - locked) * 10000.0 >= (tol as real + 1.0) * locked - DEVIATION_SLACK * locked
  {
    hide DeviationBps, SlippageExceeded, Div;
    var diff := Abs(base - locked);
    DeviationError(base, locked);
    GuardTruncates(base, locked, tol);
    if SlippageExceeded(base, locked, tol) {
      ClearDivision(diff, locked, tol as real + 1.0 - DEVIATION_SLACK);
      assert (tol as real + 1.0 - DEVIATION_SLACK) * locked == (tol as real + 1.0) * locked - DEVIATION_SLACK * locked;
    } else {
      var k := DeviationOnGrid(base, locked);
      GridGap(k, tol + 1);
      ClearDivision(diff, locked, tol as real + 1.0);
    }
  }

  /** In range, the guard compares the computed deviation with the next whole basis point. */
  lemma GuardTruncates(base: real, locked: real, tol: int)
    requires base > 0.0 && locked > 0.0
    requires DeviationBps(base, locked) < TWO_63 as real
    ensures SlippageExceeded(base, locked, tol) <==> DeviationBps(base, locked) >= tol as real + 1.0
  {
    var bps := DeviationBps(base, locked);
    DeviationError(base, locked);
    TruncateAtMost(bps, tol);
    TruncateAtMost(bps, TWO_63 - 1);
    IntPartExact(bps);
  }

  /** Multiplying a comparison of d / s * 10000 through by s. */
  lemma ClearDivision(d: real, s: real, x: real)
    requires s > 0.0
    ensures d / s * 10000.0 < x ==> d * 10000.0 < x * s
    ensures d / s * 10000.0 >= x ==> d * 10000.0 >= x * s
  {
    var q := d / s * 10000.0;
    assert q * s == d * 10000.0;
    if q < x {
      ScaleBoundStrict(q, x, s);
    } else {
      ScaleBound(x, q, s);
    }
  }

  lemma ScaleBound(x: real, y: real, s: real)
    requires x <= y && s >= 0.0
    ensures x * s <= y * s
  {
  }

  lemma ScaleBoundStrict(x: real, y: real, s: real)
    requires x < y && s > 0.0
    ensures x * s < y * s
  {
  }

  /**
   * The conversion to 64 bits is what the guard's exactness hangs on: for a given
   * deviation it agrees with the untruncated comparison at every tolerance a
   * 64-bit setting can hold if and only if the deviation is below 2^63 bps.
   */
  lemma GuardFaithfulIffInRange(base: real, locked: real)
    requires base > 0.0 && locked > 0.0
    ensures (forall tol: int :: -TWO_63 <= tol < TWO_63 ==>
               (SlippageExceeded(base, locked, tol) <==> Truncate(DeviationBps(base, locked)) > tol))
      <==> DeviationBps(base, locked) < TWO_63 as real
  {
    var bps := DeviationBps(base, locked);
    IntPartExact(bps);
    TruncateAtMost(bps, TWO_63 - 1);
    if bps >= TWO_63 as real {
      assert Truncate(bps) > TWO_63 - 1;
      assert !SlippageExceeded(base, locked, TWO_63 - 1);
    }
  }

  /** Out of that range: a spot 1.8e15 times the locked rate is accepted at any non-negative tolerance. */
  lemma GuardWrapsAround(tol: int)
    requires tol >= 0
    ensures !SlippageExceeded(1844674407370956.1616, 1.0, tol)
  {
    var diff := 1844674407370956.1616 - 1.0;
    RoundAtExact(diff, DIVISION_SCALE);
    assert Div(diff, 1.0) == diff;
    assert DeviationBps(1844674407370956.1616, 1.0) == TWO_64 as real;
    assert Truncate(TWO_64 as real) == TWO_64;
  }

  /** A rate m basis points above the spot (below it for negative m). */
  function MarkedRate(spot: real, m: int): real {
    spot * ((10000 + m) as real / 10000.0)
  }

  /**
   * When a rate m basis points off the spot is refused at that very spot, in whole
   * numbers: the markup, in units of the marked rate, rounds to tolerance + 1 bps
   * or more in the twelfth place.  A rate that is not positive is never refused.
   */
  predicate MarkupRefused(m: int, tol: int) {
    var a := if m >= 0 then m else -m;
    10000 + m > 0 && 20000000000000000 * a >= (10000 + m) * (2000000000000 * (tol + 1) - 1)
  }

  /** The guard on an unmoved spot, exactly, for every markup and every tolerance. */
  lemma UnmovedSpotIff(spot: real, m: int, tol: int)
    requires spot > 0.0
    ensures SlippageExceeded(spot, MarkedRate(spot, m), tol) <==> MarkupRefused(m, tol)
  {
    if 10000 + m > 0 {
      MarkupDeviation(spot, m);
      RatioRefusedIff(spot, MarkedRate(spot, m), if m >= 0 then m else -m, 10000 + m, tol);
    } else {
      ScaleBound((10000 + m) as real / 10000.0, 0.0, spot);
    }
  }

  /** Below 2e12 bps the rounding cannot matter: refused is tolerance + 1 bps of the marked rate, or more. */
  lemma MarkupRefusedExactly(m: int, tol: int)
    requires 10000 + m < 2000000000000
    ensures MarkupRefused(m, tol)
      <==> 10000 + m > 0 && 10000 * (if m >= 0 then m else -m) >= (tol + 1) * (10000 + m)
  {
    var a, p := if m >= 0 then m else -m, 10000 + m;
    var gap := 10000 * a - (tol + 1) * p;
    assert 20000000000000000 * a - p * (2000000000000 * (tol + 1) - 1) == 2000000000000 * gap + p;
  }

  /** A markup within tolerance of the marked rate passes, however large. */
  lemma UnmovedSpotAccepted(spot: real, m: int, tol: int)
    requires spot > 0.0 && 10000 + m > 0
    requires 10000 * (if m >= 0 then m else -m) <= tol * (10000 + m)
    ensures !SlippageExceeded(spot, MarkedRate(spot, m), tol)
  {
    var a, p := if m >= 0 then m else -m, 10000 + m;
    var gap := 10000 * a - (tol + 1) * p;
    assert gap <= -p;
    assert 20000000000000000 * a - p * (2000000000000 * (tol + 1) - 1) == 2000000000000 * gap + p;
    UnmovedSpotIff(spot, m, tol);
  }

  /** A markup of tolerance + 1 bps of the marked rate is refused, and so is a larger one. */
  lemma WideMarkupRefused(spot: real, m: int, tol: int)
    requires spot > 0.0 && 10000 + m > 0
    requires 10000 * (if m >= 0 then m else -m) >= (tol + 1) * (10000 + m)
    ensures SlippageExceeded(spot, MarkedRate(spot, m), tol)
  {
    var a, p := if m >= 0 then m else -m, 10000 + m;
    var gap := 10000 * a - (tol + 1) * p;
    assert 20000000000000000 * a - p * (2000000000000 * (tol + 1) - 1) == 2000000000000 * gap + p;
    UnmovedSpotIff(spot, m, tol);
  }

  /** The guard on a deviation of a / p below 2^62 bps, in whole numbers. */
  lemma RatioRefusedIff(base: real, locked: real, a: int, p: int, tol: int)
    requires base > 0.0 && locked > 0.0 && p > 0 && 0 <= a <= 10000 * p
    requires Abs(base - locked) / locked == a as real / p as real
    ensures SlippageExceeded(base, locked, tol)
      <==> 20000000000000000 * a >= p * (2000000000000 * (tol + 1) - 1)
  {
    var k := RoundedRatio(a, p);
    DeviationOfRatio(base, locked, a, p);
    RoundedRatioAtLeast(a, p, (tol + 1) * 1000000000000);
    RoundedRatioAtLeast(a, p, 100000000000000000001);
    GuardOnGrid(base, locked, k, tol);
  }

  /** a / p rounded to 16 places, in units of the sixteenth. */
  function RoundedRatio(a: int, p: int): int
    requires p > 0
  {
    RoundHalfAway(a as real / p as real * DIVISION_SCALE)
  }

  lemma DeviationOfRatio(base: real, locked: real, a: int, p: int)
    requires locked > 0.0 && p > 0 && a >= 0
    requires Abs(base - locked) / locked == a as real / p as real
    ensures RoundedRatio(a, p) >= 0
    ensures DeviationBps(base, locked) == RoundedRatio(a, p) as real / STEPS_PER_BPS
  {
    var q := (base - locked) / locked * DIVISION_SCALE;
    var r := a as real / p as real * DIVISION_SCALE;
    QuotientSign(base - locked, locked);
    assert q == r || q == -r;
    RoundHalfAwayNearest(r);
    QuotientSign(a as real, p as real);
    assert Div(base - locked, locked) == RoundHalfAway(q) as real / DIVISION_SCALE;
  }

  lemma RoundedAtLeast(x: real, n: int)
    requires x >= 0.0
    ensures RoundHalfAway(x) >= n <==> 2.0 * x >= (2 * n - 1) as real
  {
  }

  /** The rounded ratio reaches n when twice the ratio reaches 2 n - 1. */
  lemma RoundedRatioAtLeast(a: int, p: int, n: int)
    requires p > 0 && a >= 0
    ensures RoundedRatio(a, p) >= n <==> 20000000000000000 * a >= p * (2 * n - 1)
  {
    hide RoundHalfAway;
    var x := a as real / p as real;
    ScaleUp(x, a as real, p as real);
    QuotientSign(a as real, p as real);
    RoundedAtLeast(x * DIVISION_SCALE, n);
    ClearRatio(2.0 * DIVISION_SCALE, x, p as real, (2 * n - 1) as real);
    WholeNumbers(a, p, n);
  }

  lemma WholeNumbers(a: int, p: int, n: int)
    ensures 2.0 * DIVISION_SCALE * a as real == (20000000000000000 * a) as real
    ensures (2 * n - 1) as real * p as real == (p * (2 * n - 1)) as real
  {
  }

  lemma ClearRatio(c: real, x: real, p: real, y: real)
    requires p > 0.0
    ensures c * x >= y <==> c * (x * p) >= y * p
  {
    assert c * (x * p) == c * x * p;
    if c * x >= y {
      ScaleBound(y, c * x, p);
    } else {
      ScaleBoundStrict(c * x, y, p);
    }
  }

  lemma GuardOnGrid(base: real, locked: real, k: int, tol: int)
    requires base > 0.0 && locked > 0.0
    requires DeviationBps(base, locked) == k as real / STEPS_PER_BPS && k <= 100000000000000000000
    ensures SlippageExceeded(base, locked, tol) <==> k >= (tol + 1) * 1000000000000
  {
    GuardTruncates(base, locked, tol);
  }

  lemma MarkupDeviation(spot: real, m: int)
    requires spot > 0.0 && 10000 + m > 0
    ensures MarkedRate(spot, m) > 0.0
    ensures var locked := MarkedRate(spot, m);
      Abs(spot - locked) / locked == (if m >= 0 then m else -m) as real / (10000 + m) as real
  {
    var c := (10000 + m) as real / 10000.0;
    var locked := spot * c;
    var a := (if m >= 0 then m else -m) as real;
    assert c > 0.0;
    assert spot - locked == -(spot * (m as real / 10000.0));
    assert Abs(spot - locked) == spot * (a / 10000.0) by {
      if m >= 0 {
        assert spot * (m as real / 10000.0) >= 0.0;
      } else {
        assert spot * (m as real / 10000.0) <= 0.0;
      }
    }
    Cancel(spot, a / 10000.0, c);
    assert a / 10000.0 / c == a / (10000 + m) as real;
  }

  lemma Cancel(s: real, x: real, y: real)
    requires s > 0.0 && y > 0.0
    ensures s * y > 0.0
    ensures s * x / (s * y) == x / y
  {
    var q := x / y;
    assert q * y == x;
    assert s * x == q * (s * y);
    ScaleUp(q, 0.0, s * y);
  }
}
