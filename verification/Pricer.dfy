/** Price computation and the arithmetic promises it makes. */
module Pricing {
  import opened Wrappers
  import opened Decimals
  import opened Rates
  import opened Slippage
  import opened FeeIndexes
  import opened Stores

  datatype Price = Price(
    rate: real,
    spot: real,
    spreadBps: int,
    fee: real,
    total: real,
    cryptoAmount: real,
    sourceVenue: string)

  datatype PricingError = NoSpotRate | BadRate | DivisionByZero

  function ComputeFee(sched: Option<FeeSchedule>, base: real): real {
    match sched
    case None => 0.0
    case Some(s) =>
      if s.feeType == "FLAT" then s.feeAmount
      else if s.feeType == "BPS" then Div(Weighted(base, s.feeBps), 10000.0)
      else 0.0
  }

  /** The base times a number of basis points, before the division by 10000. */
  function Weighted(base: real, bps: int): real {
    base * bps as real
  }

  function SpreadOf(sched: Option<FeeSchedule>, defaultSpreadBps: int): int {
    if sched.Some? then sched.value.spreadBps else defaultSpreadBps
  }

  /**
   * Rate, fee, total and crypto amount.  A buy's amount is fiat, a sell's is
   * crypto.  A buy at a spread of -10000 bps divides by a zero rate; the program
   * panics there, which is modelled as an error.  On a sell the fee is computed
   * while the total is still zero.
   */
  function PriceOf(r: Rate, sched: Option<FeeSchedule>, defaultSpreadBps: int, amount: real, side: string)
    : (res: Result<Price, PricingError>)
  {
    var spot := PricingSpot(r);
    if spot <= 0.0 then Err(BadRate)
    else
      var spreadBps := SpreadOf(sched, defaultSpreadBps);
      var spread := Div(spreadBps as real, 10000.0);
      if side == "BUY" then
        BuyPrice(spot * (1.0 + spread), spot, spreadBps, ComputeFee(sched, amount), amount, r.sourceVenue)
      else if side == "SELL" then
        SellPrice(spot * (1.0 - spread), spot, spreadBps, ComputeFee(sched, 0.0), amount, r.sourceVenue)
      else
        Ok(Price(0.0, spot, spreadBps, Round8(0.0), Round8(0.0), Round8(0.0), r.sourceVenue))
  }

  function BuyPrice(rate: real, spot: real, spreadBps: int, fee: real, amount: real, venue: string)
    : (res: Result<Price, PricingError>)
  {
    if rate == 0.0 then Err(DivisionByZero)
    else Ok(Price(rate, spot, spreadBps, Round8(fee), Round8(amount + fee), Round8(Div(amount, rate)), venue))
  }

  function SellPrice(rate: real, spot: real, spreadBps: int, fee: real, amount: real, venue: string)
    : (res: Result<Price, PricingError>)
  {
    Ok(Price(rate, spot, spreadBps, Round8(fee), Round8(Net(amount, rate, fee)), Round8(amount), venue))
  }

  /** What a seller is paid for the amount, less the fee. */
  function Net(amount: real, rate: real, fee: real): real {
    amount * rate - fee
  }

  // ---------- the pricer ----------

  /** A match from an index built on one list, backed by a scan of another. */
  function IndexedMatch(built: seq<FeeSchedule>, current: seq<FeeSchedule>, k: Key, amount: real): Option<FeeSchedule> {
    if FirstExact(built, k, amount).Some? then FirstExact(built, k, amount) else FirstScan(current, k, amount)
  }

  class Pricer {
    const store: Store
    const index: FeeIndex
    const defaultSpreadBps: int

    constructor (store: Store, defaultSpreadBps: int)
      ensures this.store == store && this.defaultSpreadBps == defaultSpreadBps && fresh(index)
      ensures index.Valid() && index.built == store.schedules
    {
      var idx := new FeeIndex();
      idx.Rebuild(store.schedules);
      this.store := store;
      this.index := idx;
      this.defaultSpreadBps := defaultSpreadBps;
    }

    method ReloadIndex()
      modifies index
      ensures index.Valid() && index.built == store.schedules
    {
      index.Rebuild(store.schedules);
    }

    /**
     * The index first, then a scan of the store's list.  The index may be older
     * than the store: the refresh timer replaces the schedules without a rebuild.
     */
    method MatchSchedule(tier: string, asset: string, side: string, amount: real) returns (r: Option<FeeSchedule>)
      requires index.Valid()
      ensures r == IndexedMatch(index.built, store.schedules, Key(tier, asset, side), amount)
      ensures index.built == store.schedules ==> r == BestMatch(store.schedules, Key(tier, asset, side), amount)
    {
      var k := Key(tier, asset, side);
      var hit := index.Lookup(k, amount);
      if hit.Some? {
        return hit;
      }
      if index.built == store.schedules {
        ScanFallsBackToEmptySide(store.schedules, k, amount);
      }
      var all := store.schedules;
      var best: Option<FeeSchedule> := None;
      for i := 0 to |all|
        invariant FirstScan(all, k, amount) == FirstScan(all[i..], k, amount)
        invariant best == None
      {
        var s := all[i];
        if !s.enabled {
          continue;
        }
        if s.userTier != tier {
          continue;
        }
        if s.asset != asset {
          continue;
        }
        if s.side != "" && s.side != side {
          continue;
        }
        if amount < s.sizeBandMin || (s.sizeBandMax > 0.0 && amount > s.sizeBandMax) {
          continue;
        }
        best := Some(s);
        break;
      }
      return best;
    }

    /** Prices with the index as it is, current or not. */
    method Compute(spot: Option<Rate>, asset: string, amount: real, userTier: string, side: string)
      returns (res: Result<Price, PricingError>)
      requires index.Valid()
      ensures spot.None? ==> res == Err(NoSpotRate)
      ensures spot.Some? ==>
                var k := Key(userTier, asset, side);
                && res == PriceOf(spot.value, IndexedMatch(index.built, store.schedules, k, amount),
                                  defaultSpreadBps, amount, side)
                && (index.built == store.schedules ==>
                      res == PriceOf(spot.value, BestMatch(store.schedules, k, amount), defaultSpreadBps, amount, side))
    {
      if spot.None? {
        return Err(NoSpotRate);
      }
      var sched := MatchSchedule(userTier, asset, side, amount);
      return PriceOf(spot.value, sched, defaultSpreadBps, amount, side);
    }
  }

  // ---------- what a price promises ----------

  lemma MarkFactor(spot: real, m: int)
    ensures spot * (1.0 + Div(m as real, 10000.0)) == MarkedRate(spot, m)
    ensures spot * (1.0 - Div(m as real, 10000.0)) == MarkedRate(spot, -m)
  {
    hide Div;
    DivByPowerOfTenExact(m, 10000);
    assert 1.0 + m as real / 10000.0 == (10000 + m) as real / 10000.0;
    assert 1.0 - m as real / 10000.0 == (10000 - m) as real / 10000.0;
  }

  /**
   * When there is no price: without a positive spot, or on a buy whose rate is
   * marked down to nothing.  An unknown side is priced at nothing.
   */
  lemma PriceFailsIff(r: Rate, sched: Option<FeeSchedule>, d: int, amount: real, side: string)
    ensures PriceOf(r, sched, d, amount, side) == Err(BadRate) <==> PricingSpot(r) <= 0.0
    ensures PriceOf(r, sched, d, amount, side) == Err(DivisionByZero)
      <==> PricingSpot(r) > 0.0 && side == "BUY"
           && (if sched.Some? then sched.value.spreadBps else d) == -10000
    ensures PriceOf(r, sched, d, amount, side) != Err(NoSpotRate)
    ensures PricingSpot(r) > 0.0 && side != "BUY" && side != "SELL" ==>
              PriceOf(r, sched, d, amount, side)
              == Ok(Price(0.0, PricingSpot(r), if sched.Some? then sched.value.spreadBps else d,
                          0.0, 0.0, 0.0, r.sourceVenue))
  {
    hide PricingSpot, ComputeFee, Round8, Net, Div;
    ZeroRounds();
    MarkFactor(PricingSpot(r), SpreadOf(sched, d));
    var m := SpreadOf(sched, d);
    if PricingSpot(r) > 0.0 {
      MarkedToNothing(PricingSpot(r), m);
    }
  }

  lemma MarkedToNothing(spot: real, m: int)
    requires spot > 0.0
    ensures MarkedRate(spot, m) == 0.0 <==> m == -10000
  {
    var c := (10000 + m) as real / 10000.0;
    if m > -10000 {
      ScaleBoundStrict(0.0, c, spot);
    } else if m < -10000 {
      ScaleBoundStrict(c, 0.0, spot);
    }
  }

  /** The rate is the spot marked up (buy) or down (sell) by exactly the schedule's spread, or the default. */
  lemma RateIsSpotTimesSpread(r: Rate, sched: Option<FeeSchedule>, d: int, amount: real, side: string)
    requires side == "BUY" || side == "SELL"
    requires PriceOf(r, sched, d, amount, side).Ok?
    ensures var p := PriceOf(r, sched, d, amount, side).value;
      && p.spot > 0.0 && p.spot == PricingSpot(r) && p.sourceVenue == r.sourceVenue
      && p.spreadBps == (if sched.Some? then sched.value.spreadBps else d)
      && p.rate == p.spot * ((if side == "BUY" then 10000 + p.spreadBps else 10000 - p.spreadBps) as real / 10000.0)
      && p.spreadBps == SpreadOf(sched, d) && p.rate == MarkedRate(p.spot, MarkupOf(side, p.spreadBps))
  {
    hide PricingSpot, ComputeFee, Round8, Net, Div;
    MarkFactor(PricingSpot(r), SpreadOf(sched, d));
  }

  /** What a buyer pays is the amount and the fee, up to their own two roundings. */
  lemma BuyTotal(r: Rate, sched: Option<FeeSchedule>, d: int, amount: real)
    requires PriceOf(r, sched, d, amount, "BUY").Ok?
    ensures var p := PriceOf(r, sched, d, amount, "BUY").value;
      Abs(p.total - (amount + p.fee)) <= 2.0 * HALF_PRICE_ULP
  {
    hide PricingSpot, Round8, Div, Abs, ComputeFee;
    BuyParts(r, sched, d, amount);
    BuySums(amount, ComputeFee(sched, amount));
  }

  lemma BuySums(amount: real, fee: real)
    ensures Abs(Round8(amount + fee) - (amount + Round8(fee))) <= 2.0 * HALF_PRICE_ULP
  {
    hide Round8;
    Round8Error(fee);
    Round8Error(amount + fee);
  }

  /**
   * The fee of a buy, in numbers: nothing without a schedule or of an unknown
   * type; a flat fee as it stands, rounded; and in basis points of the amount, up
   * to the two roundings, exactly when it has at most 8 places.
   */
  lemma BuyFee(r: Rate, sched: Option<FeeSchedule>, d: int, amount: real)
    requires PriceOf(r, sched, d, amount, "BUY").Ok?
    ensures var fee := PriceOf(r, sched, d, amount, "BUY").value.fee;
      && (sched.None? ==> fee == 0.0)
      && (sched.Some? && sched.value.feeType != "FLAT" && sched.value.feeType != "BPS" ==> fee == 0.0)
      && (sched.Some? && sched.value.feeType == "FLAT" ==> fee == Round8(sched.value.feeAmount))
      && (sched.Some? && sched.value.feeType == "BPS" ==>
            var due := Weighted(amount, sched.value.feeBps) / 10000.0;
            && Weighted(amount, sched.value.feeBps) == amount * sched.value.feeBps as real
            && Abs(fee - due) <= HALF_PRICE_ULP + HALF_DIVISION_ULP
            && (fee == due <==> OnGrid(due, PRICE_SCALE)))
  {
    hide PricingSpot, Round8, Div, Abs, OnGrid, ComputeFee;
    BuyParts(r, sched, d, amount);
    RoundedFee(sched, amount);
  }

  lemma BuyParts(r: Rate, sched: Option<FeeSchedule>, d: int, amount: real)
    requires PriceOf(r, sched, d, amount, "BUY").Ok?
    ensures PriceOf(r, sched, d, amount, "BUY").value.fee == Round8(ComputeFee(sched, amount))
    ensures PriceOf(r, sched, d, amount, "BUY").value.total == Round8(amount + ComputeFee(sched, amount))
  {
    hide PricingSpot, Round8, Div, ComputeFee;
  }

  lemma RoundedFee(sched: Option<FeeSchedule>, base: real)
    ensures var fee := Round8(ComputeFee(sched, base));
      && (sched.None? ==> fee == 0.0)
      && (sched.Some? && sched.value.feeType != "FLAT" && sched.value.feeType != "BPS" ==> fee == 0.0)
      && (sched.Some? && sched.value.feeType == "FLAT" ==> fee == Round8(sched.value.feeAmount))
      && (sched.Some? && sched.value.feeType == "BPS" ==>
            var due := Weighted(base, sched.value.feeBps) / 10000.0;
            && Abs(fee - due) <= HALF_PRICE_ULP + HALF_DIVISION_ULP
            && (fee == due <==> OnGrid(due, PRICE_SCALE)))
  {
    hide Round8, Div, OnGrid, Abs, Weighted;
    ZeroRounds();
    if sched.Some? && sched.value.feeType == "BPS" {
      BpsFee(sched.value, base);
      RoundedQuotient(Weighted(base, sched.value.feeBps), 10000.0);
    }
  }

  lemma BpsFee(s: FeeSchedule, base: real)
    requires s.feeType == "BPS"
    ensures ComputeFee(Some(s), base) == Div(Weighted(base, s.feeBps), 10000.0)
  {
    hide Weighted, Div;
  }

  lemma ZeroRounds()
    ensures Round8(0.0) == 0.0
  {
    hide Round8;
    Round8Error(0.0);
  }

  /** A quotient rounded to 16 places and then to 8. */
  lemma RoundedQuotient(a: real, b: real)
    requires b != 0.0
    ensures Abs(Round8(Div(a, b)) - a / b) <= HALF_PRICE_ULP + HALF_DIVISION_ULP
    ensures Round8(Div(a, b)) == a / b <==> OnGrid(a / b, PRICE_SCALE)
  {
    hide Round8, Div, OnGrid;
    DivError(a, b);
    Round8Error(Div(a, b));
    if OnGrid(a / b, PRICE_SCALE) {
      DivExactOnGrid(a, b);
    }
  }

  /**
   * On a buy of an amount with at most 8 decimal places the rounded total is the
   * amount plus the rounded fee, except for one family of rebates: a negative fee
   * that is a tie in the eighth place while the total stays positive.
   */
  lemma BuyTotalConserved(r: Rate, sched: Option<FeeSchedule>, d: int, amount: real)
    requires amount > 0.0 && OnGrid(amount, PRICE_SCALE)
    requires PriceOf(r, sched, d, amount, "BUY").Ok?
    ensures var p := PriceOf(r, sched, d, amount, "BUY").value;
      var fee := ComputeFee(sched, amount);
      p.total == amount + p.fee <==> !(fee < 0.0 && Tie(fee, PRICE_SCALE) && amount + fee > 0.0)
  {
    var fee := ComputeFee(sched, amount);
    var k := (amount * PRICE_SCALE).Floor;
    RoundShift(k, fee * PRICE_SCALE);
    Round8IsRoundAt(fee);
    Round8IsRoundAt(amount + fee);
    assert (amount + fee) * PRICE_SCALE == k as real + fee * PRICE_SCALE;
    assert amount == k as real / PRICE_SCALE;
    assert amount + Round8(fee) == (k + RoundHalfAway(fee * PRICE_SCALE)) as real / PRICE_SCALE;
  }

  /** An input of that family: a rebate of 0.5e-8 on a purchase of 1 shows a total of 1 and a fee of -1e-8. */
  lemma RebateTieIsNotConserved(r: Rate, s: FeeSchedule)
    requires PricingSpot(r) > 0.0 && s.spreadBps == 0 && s.feeType == "FLAT" && s.feeAmount == -0.000000005
    ensures var p := PriceOf(r, Some(s), 0, 1.0, "BUY");
      p.Ok? && p.value.total == 1.0 && p.value.fee == -0.00000001
  {
    DivByPowerOfTenExact(0, 10000);
    Round8IsRoundAt(-0.000000005);
    Round8IsRoundAt(0.999999995);
  }

  /** The crypto a buyer gets is amount / rate up to the two roundings. */
  lemma BuyCryptoWithinRounding(r: Rate, sched: Option<FeeSchedule>, d: int, amount: real)
    requires PriceOf(r, sched, d, amount, "BUY").Ok?
    ensures var p := PriceOf(r, sched, d, amount, "BUY").value;
      p.rate != 0.0 && Abs(p.cryptoAmount - amount / p.rate) <= HALF_PRICE_ULP + HALF_DIVISION_ULP
  {
    var p := PriceOf(r, sched, d, amount, "BUY").value;
    DivError(amount, p.rate);
    Round8Error(Div(amount, p.rate));
  }

  lemma ZeroBaseBpsFee(s: FeeSchedule)
    requires s.feeType == "BPS"
    ensures ComputeFee(Some(s), 0.0) == 0.0
  {
    assert 0.0 * s.feeBps as real == 0 as real;
    DivByPowerOfTenExact(0, 10000);
  }

  lemma SellPriceParts(rate: real, spot: real, spreadBps: int, fee: real, amount: real, venue: string)
    ensures var p := SellPrice(rate, spot, spreadBps, fee, amount, venue).value;
      p.fee == Round8(fee) && p.total == Round8(Net(amount, p.rate, fee)) && p.cryptoAmount == Round8(amount)
  {
  }

  lemma SellParts(r: Rate, sched: Option<FeeSchedule>, d: int, amount: real)
    requires PriceOf(r, sched, d, amount, "SELL").Ok?
    ensures var p := PriceOf(r, sched, d, amount, "SELL").value;
      p.fee == Round8(ComputeFee(sched, 0.0)) && p.total == Round8(Net(amount, p.rate, ComputeFee(sched, 0.0)))
      && p.cryptoAmount == Round8(amount)
  {
    var spread := Div(SpreadOf(sched, d) as real, 10000.0);
    var rate := PricingSpot(r) * (1.0 - spread);
    SellPriceParts(rate, PricingSpot(r), SpreadOf(sched, d), ComputeFee(sched, 0.0), amount, r.sourceVenue);
  }

  /**
   * On a sell the crypto amount is the amount given up, exactly when it has at
   * most 8 decimal places; total and fee add up to the proceeds up to their own
   * two roundings; and only a flat fee is charged.
   */
  lemma SellConserved(r: Rate, sched: Option<FeeSchedule>, d: int, amount: real)
    requires PriceOf(r, sched, d, amount, "SELL").Ok?
    ensures var p := PriceOf(r, sched, d, amount, "SELL").value;
      && (OnGrid(amount, PRICE_SCALE) ==> p.cryptoAmount == amount)
      && Abs(p.cryptoAmount - amount) <= HALF_PRICE_ULP
      && Abs(p.total + p.fee - amount * p.rate) <= 2.0 * HALF_PRICE_ULP
      && p.fee == if sched.Some? && sched.value.feeType == "FLAT" then Round8(sched.value.feeAmount) else 0.0
  {
    hide Round8, ComputeFee, PriceOf, OnGrid, Abs;
    SellParts(r, sched, d, amount);
    SellSums(amount, PriceOf(r, sched, d, amount, "SELL").value.rate, ComputeFee(sched, 0.0));
    Round8Error(amount);
    SellFeeRounded(sched);
  }

  lemma SellSums(amount: real, rate: real, fee: real)
    ensures Abs(Round8(Net(amount, rate, fee)) + Round8(fee) - amount * rate) <= 2.0 * HALF_PRICE_ULP
  {
    Round8Error(fee);
    Round8Error(Net(amount, rate, fee));
    TwoRoundings(Round8(Net(amount, rate, fee)), Round8(fee), amount * rate, fee, HALF_PRICE_ULP);
  }

  lemma TwoRoundings(total: real, fee: real, gross: real, exact: real, h: real)
    requires Abs(total - (gross - exact)) <= h && Abs(fee - exact) <= h
    ensures Abs(total + fee - gross) <= 2.0 * h
  {
  }

  lemma SellFeeRounded(sched: Option<FeeSchedule>)
    ensures Round8(ComputeFee(sched, 0.0))
      == if sched.Some? && sched.value.feeType == "FLAT" then Round8(sched.value.feeAmount) else 0.0
  {
    hide Round8;
    Round8Error(0.0);
    if sched.Some? && sched.value.feeType == "BPS" {
      ZeroBaseBpsFee(sched.value);
    }
  }

  lemma RoundsToZeroIff(v: real)
    ensures Round8(v) == 0.0 <==> Abs(v) < HALF_PRICE_ULP
  {
    Round8IsRoundAt(v);
    var n := RoundHalfAway(v * PRICE_SCALE);
    assert n as real / PRICE_SCALE == 0.0 <==> n == 0;
  }

  /**
   * No fee on a sell priced in basis points: its base is a total that is still
   * zero.  That is the fee due on the proceeds exactly when this one is below half
   * a unit of the eighth place.
   */
  lemma SellBpsFeeIsZero(r: Rate, s: FeeSchedule, d: int, amount: real)
    requires PriceOf(r, Some(s), d, amount, "SELL").Ok?
    requires s.feeType == "BPS"
    ensures var p := PriceOf(r, Some(s), d, amount, "SELL").value;
      var due := ComputeFee(Some(s), amount * p.rate);
      p.fee == 0.0 && (p.fee == Round8(due) <==> Abs(due) < HALF_PRICE_ULP)
  {
    hide Round8, PriceOf, Abs;
    SellParts(r, Some(s), d, amount);
    ZeroBaseBpsFee(s);
    RoundsToZeroIff(0.0);
    RoundsToZeroIff(ComputeFee(Some(s), amount * PriceOf(r, Some(s), d, amount, "SELL").value.rate));
    assert Abs(0.0) < HALF_PRICE_ULP by {
      ZeroIsSmall();
    }
  }

  lemma ZeroIsSmall()
    ensures Abs(0.0) < HALF_PRICE_ULP
  {
  }

  predicate NonNegativeFee(sched: Option<FeeSchedule>) {
    sched.Some? ==> sched.value.feeAmount >= 0.0 && sched.value.feeBps >= 0
  }

  lemma FeeNonNegative(sched: Option<FeeSchedule>, base: real)
    requires NonNegativeFee(sched) && base >= 0.0
    ensures ComputeFee(sched, base) >= 0.0
  {
    if sched.Some? && sched.value.feeType == "BPS" {
      DivError(Weighted(base, sched.value.feeBps), 10000.0);
    }
  }

  /**
   * No free money: buying with a fiat amount and selling the crypto back at the
   * same spot returns at most that amount, up to the roundings of the crypto
   * amount (priced at the spot) and of the final total.
   */
  lemma RoundTripNeverGains(r: Rate, buy: Option<FeeSchedule>, sell: Option<FeeSchedule>, d: int, amount: real)
    requires amount >= 0.0 && PricingSpot(r) > 0.0
    requires SpreadOf(buy, d) >= 0 && 0 <= SpreadOf(sell, d) <= 10000
    requires NonNegativeFee(buy) && NonNegativeFee(sell)
    ensures var b := PriceOf(r, buy, d, amount, "BUY");
      b.Ok?
      && var s := PriceOf(r, sell, d, b.value.cryptoAmount, "SELL");
      s.Ok?
      && s.value.total <= amount + PricingSpot(r) * (HALF_PRICE_ULP + HALF_DIVISION_ULP) + HALF_PRICE_ULP
  {
    hide Round8, Div, ComputeFee, PriceOf, PricingSpot;
    BuyIsPriced(r, buy, d, amount);
    var crypto := PriceOf(r, buy, d, amount, "BUY").value.cryptoAmount;
    BoughtCrypto(r, buy, d, amount);
    SoldTotal(r, sell, d, crypto);
    Proceeds(crypto, amount, PricingSpot(r), SpreadOf(buy, d), SpreadOf(sell, d), HALF_PRICE_ULP + HALF_DIVISION_ULP);
  }

  lemma SellIsPriced(r: Rate, sched: Option<FeeSchedule>, d: int, amount: real)
    requires PricingSpot(r) > 0.0
    ensures PriceOf(r, sched, d, amount, "SELL").Ok?
  {
  }

  lemma BoughtCrypto(r: Rate, sched: Option<FeeSchedule>, d: int, amount: real)
    requires PriceOf(r, sched, d, amount, "BUY").Ok?
    ensures MarkedRate(PricingSpot(r), SpreadOf(sched, d)) != 0.0
    ensures PriceOf(r, sched, d, amount, "BUY").value.cryptoAmount
      <= amount / MarkedRate(PricingSpot(r), SpreadOf(sched, d)) + (HALF_PRICE_ULP + HALF_DIVISION_ULP)
  {
    RateIsSpotTimesSpread(r, sched, d, amount, "BUY");
    BuyCryptoWithinRounding(r, sched, d, amount);
  }

  lemma SoldTotal(r: Rate, sched: Option<FeeSchedule>, d: int, amount: real)
    requires PricingSpot(r) > 0.0 && NonNegativeFee(sched)
    ensures var s := PriceOf(r, sched, d, amount, "SELL");
      s.Ok? && s.value.total <= amount * MarkedRate(PricingSpot(r), -SpreadOf(sched, d)) + HALF_PRICE_ULP
  {
    hide Round8, Div, ComputeFee, PriceOf, PricingSpot;
    SellIsPriced(r, sched, d, amount);
    RateIsSpotTimesSpread(r, sched, d, amount, "SELL");
    SellParts(r, sched, d, amount);
    FeeNonNegative(sched, 0.0);
    NetOfFee(amount, MarkedRate(PricingSpot(r), -SpreadOf(sched, d)), ComputeFee(sched, 0.0));
  }

  lemma NetOfFee(amount: real, rate: real, fee: real)
    requires fee >= 0.0
    ensures Round8(Net(amount, rate, fee)) <= amount * rate + HALF_PRICE_ULP
  {
    Round8Error(Net(amount, rate, fee));
  }

  lemma BuyIsPriced(r: Rate, sched: Option<FeeSchedule>, d: int, amount: real)
    requires PricingSpot(r) > 0.0 && SpreadOf(sched, d) >= 0
    ensures PriceOf(r, sched, d, amount, "BUY").Ok?
  {
    DivByPowerOfTenExact(SpreadOf(sched, d), 10000);
    ScaleBound(1.0, 1.0 + SpreadOf(sched, d) as real / 10000.0, PricingSpot(r));
  }

  /** What selling back a rounded crypto amount brings in, before the fee. */
  lemma Proceeds(crypto: real, amount: real, spot: real, up: int, down: int, slack: real)
    requires amount >= 0.0 && spot > 0.0 && up >= 0 && 0 <= down <= 10000 && slack >= 0.0
    requires MarkedRate(spot, up) != 0.0 && crypto <= amount / MarkedRate(spot, up) + slack
    ensures crypto * MarkedRate(spot, -down) <= amount + spot * slack
  {
    var factor := (10000 - down) as real / 10000.0;
    ScaleBound(1.0, (10000 + up) as real / 10000.0, spot);
    CheaperAtHigherRate(amount, spot, MarkedRate(spot, up));
    ProceedsBound(crypto, amount / MarkedRate(spot, up), slack, spot, factor, amount);
  }

  /** a / rate, priced back at a spot no higher than the rate, is at most a. */
  lemma CheaperAtHigherRate(a: real, spot: real, rate: real)
    requires a >= 0.0 && 0.0 < spot <= rate
    ensures a / rate >= 0.0 && a / rate * spot <= a
  {
    var q := a / rate;
    assert q * rate == a;
    assert q >= 0.0;
    ScaleBound(spot, rate, q);
  }

  lemma ProceedsBound(crypto: real, ideal: real, slack: real, spot: real, down: real, amount: real)
    requires crypto <= ideal + slack && ideal >= 0.0 && slack >= 0.0 && spot > 0.0 && 0.0 <= down <= 1.0
    requires ideal * spot <= amount
    ensures crypto * (spot * down) <= amount + spot * slack
  {
    var rate := spot * down;
    assert 0.0 <= rate <= spot by {
      ScaleBound(0.0, down, spot);
      ScaleBound(down, 1.0, spot);
    }
    ScaleBound(crypto, ideal + slack, rate);
    ScaleBound(rate, spot, ideal + slack);
    assert (ideal + slack) * spot == ideal * spot + spot * slack;
  }

  /** How far the marked rate of a side lies off the spot, in basis points. */
  function MarkupOf(side: string, spreadBps: int): int {
    if side == "BUY" then spreadBps else -spreadBps
  }

  /**
   * The promise of the lock, exactly: a quote claimed while the spot it was priced
   * at is still the spot is refused if and only if its own spread is too wide for
   * the tolerance, measured against the marked rate.
   */
  lemma UnmovedQuoteIsHonoured(r: Rate, sched: Option<FeeSchedule>, d: int, amount: real, side: string,
                               now: Rate, tol: int)
    requires side == "BUY" || side == "SELL"
    requires PriceOf(r, sched, d, amount, side).Ok?
    requires ClaimSpot(now) == PricingSpot(r)
    ensures SlippageExceeded(ClaimSpot(now), PriceOf(r, sched, d, amount, side).value.rate, tol)
      <==> MarkupRefused(MarkupOf(side, SpreadOf(sched, d)), tol)
  {
    hide PriceOf, PricingSpot, ClaimSpot, SlippageExceeded, MarkupRefused, MarkedRate;
    RateIsSpotTimesSpread(r, sched, d, amount, side);
    UnmovedSpotIff(PricingSpot(r), MarkupOf(side, SpreadOf(sched, d)), tol);
  }

  /** The spreads that are safe to configure: on a sell the tolerance is of the marked-down rate. */
  lemma SpreadWithinToleranceIsHonoured(spread: int, side: string, tol: int)
    requires side == "BUY" || side == "SELL"
    requires if side == "BUY" then 0 <= spread <= tol else 0 <= spread && 10000 * spread <= tol * (10000 - spread)
    ensures !MarkupRefused(MarkupOf(side, spread), tol)
  {
    if side == "BUY" {
      WithinToleranceOfMarkup(spread, tol);
      UnmovedSpotAccepted(1.0, spread, tol);
      UnmovedSpotIff(1.0, spread, tol);
    } else if spread < 10000 {
      UnmovedSpotAccepted(1.0, -spread, tol);
      UnmovedSpotIff(1.0, -spread, tol);
    }
  }

  lemma WithinToleranceOfMarkup(spread: int, tol: int)
    requires 0 <= spread <= tol
    ensures 10000 * spread <= tol * (10000 + spread)
  {
    assert tol * spread >= 0;
  }

  /**
   * For every spread below 2e12 bps the threshold is exactly tolerance + 1 bps of
   * the marked rate, and a sell marked down to nothing or less is not guarded at all.
   */
  lemma TooWideSpreadIsRefused(r: Rate, sched: Option<FeeSchedule>, d: int, amount: real, side: string, tol: int)
    requires side == "BUY" || side == "SELL"
    requires PriceOf(r, sched, d, amount, side).Ok?
    requires 10000 + MarkupOf(side, SpreadOf(sched, d)) < 2000000000000
    ensures var m := MarkupOf(side, SpreadOf(sched, d));
      SlippageExceeded(PricingSpot(r), PriceOf(r, sched, d, amount, side).value.rate, tol)
      <==> 10000 + m > 0 && 10000 * (if m >= 0 then m else -m) >= (tol + 1) * (10000 + m)
  {
    hide PriceOf, PricingSpot, SlippageExceeded, MarkupRefused, MarkedRate;
    RateIsSpotTimesSpread(r, sched, d, amount, side);
    UnmovedSpotIff(PricingSpot(r), MarkupOf(side, SpreadOf(sched, d)), tol);
    MarkupRefusedExactly(MarkupOf(side, SpreadOf(sched, d)), tol);
  }
}
