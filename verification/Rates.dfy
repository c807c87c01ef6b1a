/** Spot rates as the cache stores them, and the two ways the code reads one off. */
module Rates {
  import opened Decimals

  /** A point on the process clock, in nanoseconds. */
  type Time = int

  datatype Rate = Rate(
    from: string,
    to: string,
    bid: real,
    ask: real,
    mid: real,
    ts: Time,
    sourceVenue: string,
    stale: bool)

  /** The spot a price is built on: the mid, or the bid plus half the spread when there is no mid. */
  function PricingSpot(r: Rate): real {
    if r.mid > 0.0 then r.mid else r.bid + Div(r.ask - r.bid, 2.0)
  }

  /** The spot a claim is compared with: the mid, or half of bid plus ask when there is no mid. */
  function ClaimSpot(r: Rate): real {
    if r.mid > 0.0 then r.mid else Div(r.bid + r.ask, 2.0)
  }

  /** Either reading is the mid when there is one, and otherwise the middle of the book to 16 places. */
  lemma ReadingsAreMiddle(r: Rate)
    ensures r.mid > 0.0 ==> PricingSpot(r) == r.mid && ClaimSpot(r) == r.mid
    ensures r.mid <= 0.0 ==>
              && Abs(PricingSpot(r) - (r.bid + r.ask) / 2.0) <= HALF_DIVISION_ULP
              && Abs(ClaimSpot(r) - (r.bid + r.ask) / 2.0) <= HALF_DIVISION_ULP
  {
    hide Div;
    DivError(r.ask - r.bid, 2.0);
    DivError(r.bid + r.ask, 2.0);
  }

  /**
   * Without a mid the two readings round different quotients.  For prices of at
   * most 16 places they agree except on a crossed book (ask below bid) whose sum
   * is odd in the sixteenth place, and on the mirror image below zero.
   */
  lemma SpotReadingsAgree(r: Rate)
    requires OnGrid(r.bid, DIVISION_SCALE) && OnGrid(r.ask, DIVISION_SCALE)
    ensures PricingSpot(r) == ClaimSpot(r)
      <==> r.mid > 0.0
           || !(Tie((r.ask - r.bid) / 2.0, DIVISION_SCALE)
                && ((r.ask < r.bid && r.bid + r.ask > 0.0) || (r.ask > r.bid && r.bid + r.ask < 0.0)))
  {
    MidpointsAgree(r.bid, r.ask);
  }

  lemma MidpointsAgree(bid: real, ask: real)
    requires OnGrid(bid, DIVISION_SCALE) && OnGrid(ask, DIVISION_SCALE)
    ensures bid + Div(ask - bid, 2.0) == Div(bid + ask, 2.0)
      <==> !(Tie((ask - bid) / 2.0, DIVISION_SCALE)
             && ((ask < bid && bid + ask > 0.0) || (ask > bid && bid + ask < 0.0)))
  {
    var k := (bid * DIVISION_SCALE).Floor;
    var y := (ask - bid) / 2.0 * DIVISION_SCALE;
    var z := (bid + ask) / 2.0 * DIVISION_SCALE;
    assert bid == k as real / DIVISION_SCALE;
    assert z == k as real + y;
    RoundShift(k, y);
    assert bid + Div(ask - bid, 2.0) == (k + RoundHalfAway(y)) as real / DIVISION_SCALE;
    assert Div(bid + ask, 2.0) == RoundHalfAway(z) as real / DIVISION_SCALE;
  }
}
