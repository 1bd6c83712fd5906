/** Net profit at a fixed size, and the sweep that recommends a size
    (src/scanner/profit/engine.py, src/scanner/profit/models.py). */
module ProfitEngine {
  import opened Prelude
  import opened Market
  import opened Config
  import opened Mathx
  import opened LiquidityLeg

  datatype FeeCategory = Trading | Withdrawal | Gas | Bridge | Slippage

  datatype FeeInputs = FeeInputs(
    buyFeeRate: Option<real>,
    sellFeeRate: Option<real>,
    withdrawalFeeUsd: Option<real>,
    gasFeeUsd: Option<real>,
    bridgeFeeUsd: Option<real>,
    conversionCostBps: real,
    requiresWithdrawal: bool,
    requiresGas: bool,
    requiresBridge: bool)
  {
    function ResolvedCategories(): set<FeeCategory> {
      (if buyFeeRate.Some? && sellFeeRate.Some? then {Trading} else {})
      + (if !requiresWithdrawal || withdrawalFeeUsd.Some? then {Withdrawal} else {})
      + (if !requiresGas || gasFeeUsd.Some? then {Gas} else {})
      + (if !requiresBridge || bridgeFeeUsd.Some? then {Bridge} else {})
      + {Slippage}
    }

    /** Costs that do not depend on the size traded. */
    function FixedUsd(): real {
      OrZero(withdrawalFeeUsd) + OrZero(gasFeeUsd) + OrZero(bridgeFeeUsd)
    }

    /** Percent of the notional that the fee rates and the conversion take at any size. */
    function RateFloorPct(): real {
      (OrZero(buyFeeRate) + OrZero(sellFeeRate)) * 100.0 + conversionCostBps / 100.0
    }

    predicate NonNegative() {
      && OrZero(buyFeeRate) >= 0.0 && 0.0 <= OrZero(sellFeeRate) < 1.0
      && OrZero(withdrawalFeeUsd) >= 0.0 && OrZero(gasFeeUsd) >= 0.0 && OrZero(bridgeFeeUsd) >= 0.0
      && conversionCostBps >= 0.0
    }
  }

  const ALL_CATEGORIES := {Trading, Withdrawal, Gas, Bridge, Slippage}

  function OrZero(x: Option<real>): real {
    if x.Some? then x.value else 0.0
  }

  datatype ProfitBreakdown = ProfitBreakdown(
    sizeUsd: real,
    grossProfitUsd: real,
    tradingFeesUsd: real,
    withdrawalFeesUsd: real,
    gasFeesUsd: real,
    bridgeFeesUsd: real,
    slippageCostUsd: real,
    conversionCostUsd: real,
    netProfitUsd: real,
    roiPct: real,
    grossSpreadPct: real,
    netProfitPct: real,
    resolvedCategories: set<FeeCategory>)

  datatype SizingProfile = SizingProfile(
    recommendedSizeUsd: real,
    maxCapitalUtilizationUsd: real,
    maxRecommendedPositionUsd: real,
    liquiditySaturationUsd: real,
    profitDecay: seq<(real, real)>)

  /** Prices actually paid and received, and the base quantity that changes hands. */
  datatype Fills = Fills(buyFill: real, sellFill: real, baseSize: real)

  /** The same coins bought are the coins sold; None when either leg cannot fill. */
  function FillsAt(sizeUsd: real, buyLeg: Leg, sellLeg: Leg): Option<Fills>
    requires buyLeg.Usable() && sellLeg.Usable()
  {
    var buyBest, sellBest := buyLeg.BestPrice(), sellLeg.BestPrice();
    if !Truthy(buyBest) || !Truthy(sellBest) || buyBest.value <= 0.0 || sizeUsd <= 0.0 then None
    else
      var buyFill := buyLeg.FillPrice(sizeUsd);
      if buyFill.None? || buyFill.value <= 0.0 then None
      else
        var baseSize := sizeUsd / buyFill.value;
        var sellFill := sellLeg.FillPrice(Notional(baseSize, sellBest.value));
        if sellFill.None? then None else Some(Fills(buyFill.value, sellFill.value, baseSize))
  }

  function ComputeAtSize(sizeUsd: real, buyLeg: Leg, sellLeg: Leg, fees: FeeInputs): Option<ProfitBreakdown>
    requires buyLeg.Usable() && sellLeg.Usable()
  {
    var f := FillsAt(sizeUsd, buyLeg, sellLeg);
    if f.None? then None
    else
      var Fills(buyFill, sellFill, baseSize) := f.value;
      var buyBest, sellBest := buyLeg.BestPrice().value, sellLeg.BestPrice().value;
      var gross := Notional(baseSize, sellBest - buyBest);
      var buySlip := MaxReal(0.0, Notional(baseSize, buyFill - buyBest));
      var sellSlip := MaxReal(0.0, Notional(baseSize, sellBest - sellFill));
      var executionCost := buySlip + sellSlip;
      var rateFees := RateFees(sizeUsd, f.value, fees);
      var withdrawal, gas, bridge := OrZero(fees.withdrawalFeeUsd), OrZero(fees.gasFeeUsd), OrZero(fees.bridgeFeeUsd);
      var conversion := Notional(sizeUsd, fees.conversionCostBps / 10000.0);
      var net := gross - rateFees - withdrawal - gas - bridge - executionCost - conversion;
      var poolFees := MinReal(buyLeg.PoolFeeCostUsd(sizeUsd), buySlip)
                      + MinReal(sellLeg.PoolFeeCostUsd(Notional(baseSize, sellBest)), sellSlip);
      var roi := net / sizeUsd * 100.0;
      Some(ProfitBreakdown(
        sizeUsd, gross, rateFees + poolFees, withdrawal, gas, bridge, executionCost - poolFees, conversion,
        net, roi, (sellBest - buyBest) / buyBest * 100.0, roi, fees.ResolvedCategories()))
  }

  /** Fees charged on top of the fills: on what was spent, and on what was received. */
  function RateFees(sizeUsd: real, f: Fills, fees: FeeInputs): real {
    Notional(sizeUsd, OrZero(fees.buyFeeRate)) + Notional(Notional(f.baseSize, f.sellFill), OrZero(fees.sellFeeRate))
  }

  ghost predicate SoundTrade(buyLeg: Leg, sellLeg: Leg) {
    buyLeg.Sound() && sellLeg.Sound() && buyLeg.side == Buy && sellLeg.side == Sell
    && buyLeg.Usable() && sellLeg.Usable()
  }

  /** Both fills are no better than the top prices, and the coins are paid for exactly. */
  lemma FillsAreHonest(sizeUsd: real, buyLeg: Leg, sellLeg: Leg)
    requires SoundTrade(buyLeg, sellLeg)
    ensures FillsAt(sizeUsd, buyLeg, sellLeg).Some? ==>
              var f := FillsAt(sizeUsd, buyLeg, sellLeg).value;
              && sizeUsd > 0.0 && f.baseSize > 0.0 && Notional(f.baseSize, f.buyFill) == sizeUsd
              && f.buyFill >= buyLeg.BestPrice().value > 0.0
              && 0.0 < f.sellFill <= sellLeg.BestPrice().value
  {
    hide Notional;
    if FillsAt(sizeUsd, buyLeg, sellLeg).Some? {
      var f := FillsAt(sizeUsd, buyLeg, sellLeg).value;
      BuyFillAtOrAboveBest(buyLeg, sizeUsd);
      PaidExactly(sizeUsd, f.buyFill);
      BestIsPositive(sellLeg);
      PositiveNotional(f.baseSize, sellLeg.BestPrice().value);
      SellFillAtOrBelowBest(sellLeg, Notional(f.baseSize, sellLeg.BestPrice().value));
    }
  }

  lemma PaidExactly(size: real, price: real)
    requires price > 0.0 && size > 0.0
    ensures size / price > 0.0 && Notional(size / price, price) == size
  {
    SignKept(size / price, price);
  }

  lemma PositiveNotional(k: real, a: real)
    requires k > 0.0
    ensures a > 0.0 ==> Notional(k, a) > 0.0
    ensures a >= 0.0 ==> Notional(k, a) >= 0.0
  {
    SignKept(a, k);
  }

  /** Cost of moving the market, net of any fee inside the fill. */
  function PriceImpact(leg: Leg, baseSize: real, fill: real, best: real): real {
    match leg
    case CexBookLeg(_, Buy) => Notional(baseSize, fill - best)
    case CexBookLeg(_, Sell) => Notional(baseSize, best - fill)
    case DexPoolLeg(_, Buy) => Notional(baseSize, Notional(fill, 1.0 - leg.FeeRate()) - best)
    case DexPoolLeg(_, Sell) => Notional(baseSize, Notional(best, 1.0 - leg.FeeRate()) - fill)
  }

  /** A leg's pool fee never exceeds its slippage, so the cap on it does not bind, and what
      remains of the slippage is exactly the non-negative price impact. */
  lemma LegSplit(leg: Leg, baseSize: real, fill: real, notional: real)
    requires leg.Sound() && leg.Usable() && baseSize > 0.0 && notional > 0.0
    requires leg.BestPrice().Some? && leg.FillPrice(notional) == Some(fill)
    requires leg.side == Buy ==> fill > 0.0 && baseSize == notional / fill
    requires leg.side == Sell ==> notional == Notional(baseSize, leg.BestPrice().value)
    ensures var best := leg.BestPrice().value;
      && Slip(leg, baseSize, fill, best) >= leg.PoolFeeCostUsd(notional) >= 0.0
      && Slip(leg, baseSize, fill, best) - leg.PoolFeeCostUsd(notional)
         == PriceImpact(leg, baseSize, fill, best) >= 0.0
  {
    hide Notional;
    BestIsPositive(leg);
    var best := leg.BestPrice().value;
    if leg.side == Buy {
      BuyFillAtOrAboveBest(leg, notional);
      PositiveNotional(baseSize, fill - best);
      PaidExactly(notional, fill);
    } else {
      SellFillAtOrBelowBest(leg, notional);
      PositiveNotional(baseSize, best - fill);
      BaseFromNotional(baseSize, best);
    }
    if leg.DexPoolLeg? {
      PoolLegSplit(leg, baseSize, fill, notional);
    }
  }

  function Slip(leg: Leg, baseSize: real, fill: real, best: real): real {
    if leg.side == Buy then Notional(baseSize, fill - best) else Notional(baseSize, best - fill)
  }

  lemma PoolLegSplit(leg: Leg, baseSize: real, fill: real, notional: real)
    requires leg.Sound() && leg.DexPoolLeg? && leg.Usable() && notional > 0.0
    requires leg.BestPrice().Some? && leg.FillPrice(notional) == Some(fill)
    requires leg.side == Buy ==> fill > 0.0 && baseSize == notional / fill && notional == Notional(baseSize, fill)
    requires leg.side == Sell ==> leg.BestPrice().value > 0.0 && baseSize == notional / leg.BestPrice().value
                                  && notional == Notional(baseSize, leg.BestPrice().value)
    ensures var best := leg.BestPrice().value;
      && Slip(leg, baseSize, fill, best) >= leg.PoolFeeCostUsd(notional) >= 0.0
      && Slip(leg, baseSize, fill, best) - leg.PoolFeeCostUsd(notional) == PriceImpact(leg, baseSize, fill, best)
  {
    PoolFeeFitsInSlippage(leg, notional);
    hide Notional, Leg.FillPrice, Leg.BestPrice;
    PositiveNotional(notional, leg.FeeRate());
    SplitPoolSlip(baseSize, fill, leg.BestPrice().value, leg.FeeRate());
  }

  lemma BaseFromNotional(baseSize: real, best: real)
    requires best > 0.0
    ensures Notional(baseSize, best) / best == baseSize
  {
    var x := Notional(baseSize, best) / best;
    assert x * best == baseSize * best;
    assert (x - baseSize) * best == 0.0;
    ZeroProduct(x - baseSize, best);
  }

  lemma SplitPoolSlip(baseSize: real, fill: real, spot: real, fee: real)
    ensures Notional(baseSize, fill - spot) - Notional(Notional(baseSize, fill), fee)
            == Notional(baseSize, Notional(fill, 1.0 - fee) - spot)
    ensures Notional(baseSize, spot - fill) - Notional(Notional(baseSize, spot), fee)
            == Notional(baseSize, Notional(spot, 1.0 - fee) - fill)
  {
  }

  /** Exact accounting for all four combinations of book and pool legs: net is what the coins fetch
      minus what was paid, minus every fee; the two reported cost columns are the charged fees plus
      the uncapped pool fees, and pure price impact. */
  lemma ProfitAccounting(sizeUsd: real, buyLeg: Leg, sellLeg: Leg, fees: FeeInputs)
    requires SoundTrade(buyLeg, sellLeg) && ComputeAtSize(sizeUsd, buyLeg, sellLeg, fees).Some?
    ensures var f, bd := FillsAt(sizeUsd, buyLeg, sellLeg).value, ComputeAtSize(sizeUsd, buyLeg, sellLeg, fees).value;
      var buyBest, sellBest := buyLeg.BestPrice().value, sellLeg.BestPrice().value;
      && bd.netProfitUsd == Notional(f.baseSize, f.sellFill) - sizeUsd - RateFees(sizeUsd, f, fees)
                            - fees.FixedUsd() - Notional(sizeUsd, fees.conversionCostBps / 10000.0)
      && bd.netProfitUsd == bd.grossProfitUsd - bd.tradingFeesUsd - bd.slippageCostUsd - bd.withdrawalFeesUsd
                            - bd.gasFeesUsd - bd.bridgeFeesUsd - bd.conversionCostUsd
      && bd.tradingFeesUsd == RateFees(sizeUsd, f, fees) + buyLeg.PoolFeeCostUsd(sizeUsd)
                              + sellLeg.PoolFeeCostUsd(Notional(f.baseSize, sellBest))
      && bd.slippageCostUsd == PriceImpact(buyLeg, f.baseSize, f.buyFill, buyBest)
                               + PriceImpact(sellLeg, f.baseSize, f.sellFill, sellBest)
      && bd.slippageCostUsd >= 0.0
      && Notional(sizeUsd, bd.roiPct) == Notional(100.0, bd.netProfitUsd)
  {
    hide Notional, PriceImpact, RateFees, Leg.FillPrice, Leg.BestPrice;
    var f := FillsAt(sizeUsd, buyLeg, sellLeg).value;
    var buyBest, sellBest := buyLeg.BestPrice().value, sellLeg.BestPrice().value;
    FillsAreHonest(sizeUsd, buyLeg, sellLeg);
    PositiveNotional(f.baseSize, sellBest);
    LegSplit(buyLeg, f.baseSize, f.buyFill, sizeUsd);
    LegSplit(sellLeg, f.baseSize, f.sellFill, Notional(f.baseSize, sellBest));
    GrossIdentity(f.baseSize, buyBest, sellBest, f.buyFill, f.sellFill);
    var net := ComputeAtSize(sizeUsd, buyLeg, sellLeg, fees).value.netProfitUsd;
    PerSize(net, sizeUsd);
  }

  lemma GrossIdentity(baseSize: real, buyBest: real, sellBest: real, buyFill: real, sellFill: real)
    ensures Notional(baseSize, sellBest - buyBest) - Notional(baseSize, buyFill - buyBest)
            - Notional(baseSize, sellBest - sellFill)
            == Notional(baseSize, sellFill) - Notional(baseSize, buyFill)
  {
  }

  lemma PerSize(net: real, sizeUsd: real)
    requires sizeUsd > 0.0
    ensures Notional(sizeUsd, net / sizeUsd * 100.0) == Notional(100.0, net)
  {
    var x := net / sizeUsd;
    assert x * sizeUsd == net;
    assert x * 100.0 * sizeUsd == (x * sizeUsd) * 100.0;
  }

  /** The bound every cheap pre-check rests on. The engine charges the sell fee on what the sale
      actually fetches, which may be less than the flat rate on the notional, yet no size earns more
      than the top-of-book spread minus the flat fee floor minus the fixed costs; and a negative
      spread loses money at any size. */
  lemma RoiBound(sizeUsd: real, buyLeg: Leg, sellLeg: Leg, fees: FeeInputs)
    requires SoundTrade(buyLeg, sellLeg) && fees.NonNegative()
    requires ComputeAtSize(sizeUsd, buyLeg, sellLeg, fees).Some?
    ensures var bd := ComputeAtSize(sizeUsd, buyLeg, sellLeg, fees).value;
      && sizeUsd > 0.0
      && (bd.grossSpreadPct >= 0.0 ==>
            bd.roiPct <= bd.grossSpreadPct - fees.RateFloorPct() - fees.FixedUsd() / sizeUsd * 100.0)
      && (bd.grossSpreadPct < 0.0 ==> bd.roiPct < 0.0)
      && (bd.netProfitUsd <= 0.0 <==> bd.roiPct <= 0.0)
  {
    hide Notional, PriceImpact, Leg.FillPrice, Leg.BestPrice, Leg.PoolFeeCostUsd;
    var bd := ComputeAtSize(sizeUsd, buyLeg, sellLeg, fees).value;
    var f := FillsAt(sizeUsd, buyLeg, sellLeg).value;
    ProfitAccounting(sizeUsd, buyLeg, sellLeg, fees);
    FillsAreHonest(sizeUsd, buyLeg, sellLeg);
    var proceeds := Notional(f.baseSize, f.sellFill);
    ProceedsBound(sizeUsd, f, buyLeg.BestPrice().value, sellLeg.BestPrice().value);
    NetBound(sizeUsd, proceeds, bd.grossSpreadPct, OrZero(fees.buyFeeRate), OrZero(fees.sellFeeRate),
             fees.conversionCostBps, fees.FixedUsd(), bd.netProfitUsd);
    SameSign(bd.netProfitUsd, sizeUsd);
  }

  lemma SameSign(net: real, size: real)
    requires size > 0.0
    ensures net <= 0.0 <==> net / size * 100.0 <= 0.0
  {
    var x := net / size;
    assert x * size == net;
    SignKept(-x, size);
  }

  /** Worse fills on both sides only shrink the ratio of the sell price to the buy price. */
  lemma ProceedsBound(sizeUsd: real, f: Fills, buyBest: real, sellBest: real)
    requires f.baseSize > 0.0 && f.baseSize * f.buyFill == sizeUsd
    requires f.buyFill >= buyBest > 0.0 && 0.0 < f.sellFill <= sellBest
    ensures 0.0 < Notional(f.baseSize, f.sellFill)
    ensures Notional(f.baseSize, f.sellFill) <= sizeUsd + Notional(sizeUsd, (sellBest - buyBest) / buyBest)
  {
    var proceeds, s := f.baseSize * f.sellFill, (sellBest - buyBest) / buyBest;
    assert s * buyBest == sellBest - buyBest;
    SignKept(f.sellFill, f.baseSize);
    assert f.baseSize * (f.buyFill - buyBest) >= 0.0;
    assert (f.baseSize * (f.buyFill - buyBest)) * f.sellFill >= 0.0;
    assert sizeUsd * f.sellFill - proceeds * buyBest == (f.baseSize * (f.buyFill - buyBest)) * f.sellFill;
    SignKept(sizeUsd, f.baseSize);
    assert sizeUsd > 0.0;
    assert sizeUsd * (sellBest - f.sellFill) >= 0.0;
    assert (sizeUsd + sizeUsd * s - proceeds) * buyBest == sizeUsd * sellBest - proceeds * buyBest;
    SignKept(sizeUsd + sizeUsd * s - proceeds, buyBest);
  }

  lemma NonNegativeProduct(a: real, b: real)
    requires a >= 0.0 && b >= 0.0
    ensures a * b >= 0.0
  {
  }

  lemma NetBound(size: real, proceeds: real, spreadPct: real, bf: real, sf: real, bps: real, fixed: real, net: real)
    requires size > 0.0 && 0.0 < proceeds <= size + Notional(size, spreadPct / 100.0)
    requires bf >= 0.0 && 0.0 <= sf < 1.0 && bps >= 0.0 && fixed >= 0.0
    requires net == proceeds - size - (Notional(size, bf)
        + Notional(proceeds, sf)) - fixed - Notional(size, bps / 10000.0)
    ensures spreadPct >= 0.0 ==>
              net / size * 100.0 <= spreadPct - ((bf + sf) * 100.0 + bps / 100.0) - fixed / size * 100.0
    ensures spreadPct < 0.0 ==> net / size * 100.0 < 0.0
  {
    var s, c := spreadPct / 100.0, bps / 10000.0;
    var x, y := net / size, fixed / size;
    assert x * size == net && y * size == fixed;
    if spreadPct >= 0.0 {
      NetCeiling(size, proceeds, s, bf, sf, c, fixed, net);
      var z := s - bf - sf - c - y;
      ScaledMargin(size, s, bf, sf, c, y);
      assert (z - x) * size == z * size - x * size;
      SignKept(z - x, size);
    } else {
      NonNegativeProduct(size, bf);
      NonNegativeProduct(size, c);
      NonNegativeProduct(proceeds, sf);
      SignKept(-s, size);
      assert (-s) * size == -Notional(size, s);
      assert (-x) * size == -net;
      SignKept(-x, size);
    }
  }

  lemma NetCeiling(size: real, proceeds: real, s: real, bf: real, sf: real, c: real, fixed: real, net: real)
    requires size > 0.0 && s >= 0.0 && 0.0 < proceeds <= size + Notional(size, s) && 0.0 <= sf < 1.0
    requires net == proceeds - size - (Notional(size, bf) + Notional(proceeds, sf)) - fixed - Notional(size, c)
    ensures net <= Notional(size, s) - Notional(size, sf) - Notional(size, bf) - fixed - Notional(size, c)
  {
    var gain := Notional(size, s);
    var ceiling := size + gain;
    NonNegativeProduct(size, s);
    NonNegativeProduct(gain, sf);
    NonNegativeProduct(ceiling - proceeds, 1.0 - sf);
    ExpandGap(size, gain, proceeds, sf);
  }

  lemma ExpandGap(size: real, gain: real, proceeds: real, sf: real)
    ensures (size + gain - proceeds) * (1.0 - sf)
            == size + gain - proceeds - Notional(size, sf) - gain * sf + Notional(proceeds, sf)
  {
  }

  lemma ScaledMargin(size: real, s: real, bf: real, sf: real, c: real, y: real)
    ensures (s - bf - sf - c - y) * size
            == Notional(size, s) - Notional(size, bf) - Notional(size, sf) - Notional(size, c) - y * size
  {
  }

  // ── the size sweep ──

  const SWEEP := [0.25, 0.5, 0.75, 1.0]

  function Saturation(cfg: ScannerConfig, buyLeg: Leg, sellLeg: Leg, buyType: VenueType, sellType: VenueType): real {
    MinReal(buyLeg.MaxSizeUsd(cfg.MaxSlippagePct(buyType)), sellLeg.MaxSizeUsd(cfg.MaxSlippagePct(sellType)))
  }

  /** Breakdowns of those of the first n sweep sizes that fill, smallest first. */
  function Swept(n: nat, saturation: real, buyLeg: Leg, sellLeg: Leg, fees: FeeInputs): seq<ProfitBreakdown>
    requires n <= |SWEEP| && buyLeg.Usable() && sellLeg.Usable()
  {
    if n == 0 then []
    else
      var bd := ComputeAtSize(Notional(saturation, SWEEP[n - 1]), buyLeg, sellLeg, fees);
      Swept(n - 1, saturation, buyLeg, sellLeg, fees) + (if bd.Some? then [bd.value] else [])
  }

  function Decay(n: nat, saturation: real, buyLeg: Leg, sellLeg: Leg, fees: FeeInputs): seq<(real, real)>
    requires n <= |SWEEP| && buyLeg.Usable() && sellLeg.Usable()
  {
    if n == 0 then []
    else
      var bd := ComputeAtSize(Notional(saturation, SWEEP[n - 1]), buyLeg, sellLeg, fees);
      Decay(n - 1, saturation, buyLeg, sellLeg, fees)
      + [(Notional(100.0, SWEEP[n - 1]), if bd.Some? then bd.value.roiPct else 0.0)]
  }

  function Where(pool: seq<ProfitBreakdown>, keep: ProfitBreakdown -> bool): (kept: seq<ProfitBreakdown>)
    ensures forall b :: b in kept <==> b in pool && keep(b)
  {
    if pool == [] then []
    else (if keep(pool[0]) then [pool[0]] else []) + Where(pool[1..], keep)
  }

  /** First element whose measure is maximal, as Python's max picks it. */
  function FirstMax(pool: seq<ProfitBreakdown>, measure: ProfitBreakdown -> real): (best: ProfitBreakdown)
    requires pool != []
    ensures best in pool && forall b :: b in pool ==> measure(b) <= measure(best)
    ensures exists i :: 0 <= i < |pool| && pool[i] == best
                        && forall j :: 0 <= j < i ==> measure(pool[j]) < measure(best)
  {
    if |pool| == 1 then pool[0]
    else
      var rest := FirstMax(pool[1..], measure);
      if measure(pool[0]) >= measure(rest) then pool[0] else rest
  }

  function Eligible(cfg: ScannerConfig, pool: seq<ProfitBreakdown>): seq<ProfitBreakdown> {
    Where(pool, (b: ProfitBreakdown) => b.roiPct >= cfg.minRoiPct)
  }

  function Profitable(cfg: ScannerConfig, pool: seq<ProfitBreakdown>): seq<ProfitBreakdown> {
    Where(pool, (b: ProfitBreakdown) => b.netProfitUsd >= cfg.minNetProfitUsd)
  }

  function Recommended(cfg: ScannerConfig, breakdowns: seq<ProfitBreakdown>): ProfitBreakdown
    requires breakdowns != []
  {
    var eligible := Eligible(cfg, breakdowns);
    FirstMax(if eligible != [] then eligible else breakdowns, (b: ProfitBreakdown) => b.netProfitUsd)
  }

  function MaxRecommended(cfg: ScannerConfig, breakdowns: seq<ProfitBreakdown>): real
    requires breakdowns != []
  {
    var profitable := Profitable(cfg, breakdowns);
    if profitable != [] then FirstMax(profitable, (b: ProfitBreakdown) => b.sizeUsd).sizeUsd
    else Recommended(cfg, breakdowns).sizeUsd
  }

  function Optimize(cfg: ScannerConfig, buyLeg: Leg, sellLeg: Leg, fees: FeeInputs,
                    buyType: VenueType, sellType: VenueType): Option<(ProfitBreakdown, SizingProfile)>
    requires buyLeg.Usable() && sellLeg.Usable()
  {
    var sat := Saturation(cfg, buyLeg, sellLeg, buyType, sellType);
    if sat <= 0.0 then None
    else
      var breakdowns := Swept(|SWEEP|, sat, buyLeg, sellLeg, fees);
      if breakdowns == [] then None
      else
        var best := Recommended(cfg, breakdowns);
        Some((best, SizingProfile(best.sizeUsd, sat, MaxRecommended(cfg, breakdowns), sat,
                                  Decay(|SWEEP|, sat, buyLeg, sellLeg, fees))))
  }

  /** The source's sweep over 25/50/75/100% of saturation. */
  method Sweep(sat: real, buyLeg: Leg, sellLeg: Leg, fees: FeeInputs)
    returns (breakdowns: seq<ProfitBreakdown>, decay: seq<(real, real)>)
    requires buyLeg.Usable() && sellLeg.Usable()
    ensures breakdowns == Swept(|SWEEP|, sat, buyLeg, sellLeg, fees)
    ensures decay == Decay(|SWEEP|, sat, buyLeg, sellLeg, fees)
  {
    hide ComputeAtSize, Notional;
    decay, breakdowns := [], [];
    for i := 0 to |SWEEP|
      invariant breakdowns == Swept(i, sat, buyLeg, sellLeg, fees)
      invariant decay == Decay(i, sat, buyLeg, sellLeg, fees)
    {
      var bd := ComputeAtSize(Notional(sat, SWEEP[i]), buyLeg, sellLeg, fees);
      if bd.None? {
        decay := decay + [(Notional(100.0, SWEEP[i]), 0.0)];
        continue;
      }
      breakdowns := breakdowns + [bd.value];
      decay := decay + [(Notional(100.0, SWEEP[i]), bd.value.roiPct)];
    }
  }

  /** The source's optimizer computes exactly `Optimize`. */
  method OptimizeSize(cfg: ScannerConfig, buyLeg: Leg, sellLeg: Leg, fees: FeeInputs,
                      buyType: VenueType, sellType: VenueType)
    returns (r: Option<(ProfitBreakdown, SizingProfile)>)
    requires buyLeg.Usable() && sellLeg.Usable()
    ensures r == Optimize(cfg, buyLeg, sellLeg, fees, buyType, sellType)
  {
    hide Saturation, Swept, Decay, Recommended, MaxRecommended;
    var sat := Saturation(cfg, buyLeg, sellLeg, buyType, sellType);
    if sat <= 0.0 {
      return None;
    }
    var breakdowns, decay := Sweep(sat, buyLeg, sellLeg, fees);
    if breakdowns == [] {
      return None;
    }
    var best := Recommended(cfg, breakdowns);
    return Some((best, SizingProfile(best.sizeUsd, sat, MaxRecommended(cfg, breakdowns), sat, decay)));
  }

  /** Every swept breakdown is the computation at a sweep size, none above saturation. */
  lemma {:induction false} SweepMembers(n: nat, sat: real, buyLeg: Leg, sellLeg: Leg, fees: FeeInputs)
    requires n <= |SWEEP| && buyLeg.Usable() && sellLeg.Usable() && sat > 0.0
    ensures forall b :: b in Swept(n, sat, buyLeg, sellLeg, fees) <==>
              exists k :: 0 <= k < n && Some(b) == ComputeAtSize(Notional(sat, SWEEP[k]), buyLeg, sellLeg, fees)
  {
    hide ComputeAtSize, Notional;
    if n > 0 {
      SweepMembers(n - 1, sat, buyLeg, sellLeg, fees);
    }
  }

  ghost predicate ClearsGateOne(cfg: ScannerConfig, b: ProfitBreakdown) {
    b.netProfitUsd >= cfg.minNetProfitUsd && b.roiPct >= cfg.minRoiPct
  }

  /** The recommended size clears both profit bars exactly when some swept size does: the sweep
      never recommends its way past a publishable size. Then the viable-position limit is at least
      the recommended size. */
  lemma RecommendationIsComplete(cfg: ScannerConfig, buyLeg: Leg, sellLeg: Leg, fees: FeeInputs,
                                 buyType: VenueType, sellType: VenueType)
    requires buyLeg.Usable() && sellLeg.Usable()
    requires Optimize(cfg, buyLeg, sellLeg, fees, buyType, sellType).Some?
    ensures var (best, sizing) := Optimize(cfg, buyLeg, sellLeg, fees, buyType, sellType).value;
      var sat := Saturation(cfg, buyLeg, sellLeg, buyType, sellType);
      && (ClearsGateOne(cfg, best) <==>
            exists k :: 0 <= k < |SWEEP| && SweepSizeClears(k, cfg, sat, buyLeg, sellLeg, fees))
      && (ClearsGateOne(cfg, best) ==> sizing.maxRecommendedPositionUsd >= sizing.recommendedSizeUsd)
      && sizing.recommendedSizeUsd == best.sizeUsd
      && (exists k :: 0 <= k < |SWEEP| && Some(best) == ComputeAtSize(Notional(sat, SWEEP[k]), buyLeg, sellLeg, fees))
  {
    hide ComputeAtSize, Saturation, Notional, Swept, Decay, Where, FirstMax;
    var sat := Saturation(cfg, buyLeg, sellLeg, buyType, sellType);
    var pool := Swept(|SWEEP|, sat, buyLeg, sellLeg, fees);
    SweepMembers(|SWEEP|, sat, buyLeg, sellLeg, fees);
    var best := Recommended(cfg, pool);
    assert best in pool;
    if k :| 0 <= k < |SWEEP| && SweepSizeClears(k, cfg, sat, buyLeg, sellLeg, fees) {
      var b := ComputeAtSize(Notional(sat, SWEEP[k]), buyLeg, sellLeg, fees).value;
      assert b in Eligible(cfg, pool);
    }
    if ClearsGateOne(cfg, best) {
      var k :| 0 <= k < |SWEEP| && Some(best) == ComputeAtSize(Notional(sat, SWEEP[k]), buyLeg, sellLeg, fees);
      assert SweepSizeClears(k, cfg, sat, buyLeg, sellLeg, fees);
      assert best in Profitable(cfg, pool);
    }
  }

  /** The breakdown at one of the four sizes tried, if that size fills. */
  function SweptAt(k: int, sat: real, buyLeg: Leg, sellLeg: Leg, fees: FeeInputs): Option<ProfitBreakdown>
    requires 0 <= k < |SWEEP| && buyLeg.Usable() && sellLeg.Usable()
  {
    ComputeAtSize(Notional(sat, SWEEP[k]), buyLeg, sellLeg, fees)
  }

  ghost predicate NetsAt(k: int, bar: real, sat: real, buyLeg: Leg, sellLeg: Leg, fees: FeeInputs)
    requires 0 <= k < |SWEEP| && buyLeg.Usable() && sellLeg.Usable()
  {
    var bd := SweptAt(k, sat, buyLeg, sellLeg, fees);
    bd.Some? && bd.value.netProfitUsd >= bar
  }

  ghost predicate ReturnsAt(k: int, bar: real, sat: real, buyLeg: Leg, sellLeg: Leg, fees: FeeInputs)
    requires 0 <= k < |SWEEP| && buyLeg.Usable() && sellLeg.Usable()
  {
    var bd := SweptAt(k, sat, buyLeg, sellLeg, fees);
    bd.Some? && bd.value.roiPct >= bar
  }

  ghost predicate AscendingSizes(pool: seq<ProfitBreakdown>) {
    forall i, j :: 0 <= i < j < |pool| ==> pool[i].sizeUsd < pool[j].sizeUsd
  }

  lemma ComputedSize(size: real, buyLeg: Leg, sellLeg: Leg, fees: FeeInputs)
    requires buyLeg.Usable() && sellLeg.Usable() && ComputeAtSize(size, buyLeg, sellLeg, fees).Some?
    ensures FillsAt(size, buyLeg, sellLeg).Some? && ComputeAtSize(size, buyLeg, sellLeg, fees).value.sizeUsd == size
  {
    hide FillsAt, Notional;
  }

  lemma LargerFraction(sat: real, j: int, k: int)
    requires sat > 0.0 && 0 <= j < k < |SWEEP|
    ensures Notional(sat, SWEEP[j]) < Notional(sat, SWEEP[k])
  {
  }

  lemma {:induction false} SweptAscends(n: nat, sat: real, buyLeg: Leg, sellLeg: Leg, fees: FeeInputs)
    requires n <= |SWEEP| && buyLeg.Usable() && sellLeg.Usable() && sat > 0.0
    ensures AscendingSizes(Swept(n, sat, buyLeg, sellLeg, fees))
  {
    hide ComputeAtSize, Notional;
    if n > 0 {
      SweptAscends(n - 1, sat, buyLeg, sellLeg, fees);
      SweepMembers(n - 1, sat, buyLeg, sellLeg, fees);
      var rest := Swept(n - 1, sat, buyLeg, sellLeg, fees);
      var last := SweptAt(n - 1, sat, buyLeg, sellLeg, fees);
      if last.Some? {
        ComputedSize(Notional(sat, SWEEP[n - 1]), buyLeg, sellLeg, fees);
        forall i | 0 <= i < |rest| ensures rest[i].sizeUsd < last.value.sizeUsd {
          assert rest[i] in rest;
          var k :| 0 <= k < n - 1 && Some(rest[i]) == ComputeAtSize(Notional(sat, SWEEP[k]), buyLeg, sellLeg, fees);
          ComputedSize(Notional(sat, SWEEP[k]), buyLeg, sellLeg, fees);
          LargerFraction(sat, k, n - 1);
        }
      }
    }
  }

  lemma {:induction false} WhereAscends(pool: seq<ProfitBreakdown>, keep: ProfitBreakdown -> bool)
    requires AscendingSizes(pool)
    ensures AscendingSizes(Where(pool, keep))
  {
    if pool != [] {
      WhereAscends(pool[1..], keep);
      var rest := Where(pool[1..], keep);
      forall i | 0 <= i < |rest| ensures pool[0].sizeUsd < rest[i].sizeUsd {
        assert rest[i] in rest;
      }
    }
  }

  /** Of equally good ones the first is the smallest. */
  lemma FirstIsSmallest(pool: seq<ProfitBreakdown>, measure: ProfitBreakdown -> real)
    requires pool != [] && AscendingSizes(pool)
    ensures var best := FirstMax(pool, measure);
      forall b :: b in pool && measure(b) == measure(best) ==> best.sizeUsd <= b.sizeUsd
  {
    var best := FirstMax(pool, measure);
    var i :| 0 <= i < |pool| && pool[i] == best && forall j :: 0 <= j < i ==> measure(pool[j]) < measure(best);
    forall b | b in pool && measure(b) == measure(best) ensures best.sizeUsd <= b.sizeUsd {
      var j :| 0 <= j < |pool| && pool[j] == b;
    }
  }

  lemma EligibleIffSome(cfg: ScannerConfig, sat: real, buyLeg: Leg, sellLeg: Leg, fees: FeeInputs)
    requires buyLeg.Usable() && sellLeg.Usable() && sat > 0.0
    ensures Eligible(cfg, Swept(|SWEEP|, sat, buyLeg, sellLeg, fees)) != []
            <==> exists j :: 0 <= j < |SWEEP| && ReturnsAt(j, cfg.minRoiPct, sat, buyLeg, sellLeg, fees)
  {
    hide ComputeAtSize, Notional, Swept, Where;
    var pool := Swept(|SWEEP|, sat, buyLeg, sellLeg, fees);
    SweepMembers(|SWEEP|, sat, buyLeg, sellLeg, fees);
    var eligible := Eligible(cfg, pool);
    if j :| 0 <= j < |SWEEP| && ReturnsAt(j, cfg.minRoiPct, sat, buyLeg, sellLeg, fees) {
      assert SweptAt(j, sat, buyLeg, sellLeg, fees).value in pool;
      assert SweptAt(j, sat, buyLeg, sellLeg, fees).value in eligible;
    }
    if eligible != [] {
      assert eligible[0] in eligible && eligible[0] in pool;
      var j :| 0 <= j < |SWEEP| && Some(eligible[0]) == ComputeAtSize(Notional(sat, SWEEP[j]), buyLeg, sellLeg, fees);
      assert ReturnsAt(j, cfg.minRoiPct, sat, buyLeg, sellLeg, fees);
    }
  }

  /** The best of a pool in ascending order: none of those it is chosen from nets more, nor as much at less. */
  lemma RecommendedOfPool(cfg: ScannerConfig, pool: seq<ProfitBreakdown>, rival: ProfitBreakdown)
    requires AscendingSizes(pool) && rival in pool
    requires Eligible(cfg, pool) != [] ==> rival.roiPct >= cfg.minRoiPct
    ensures var best := Recommended(cfg, pool);
      && (Eligible(cfg, pool) != [] ==> best.roiPct >= cfg.minRoiPct)
      && (best.netProfitUsd > rival.netProfitUsd
          || (best.netProfitUsd == rival.netProfitUsd && best.sizeUsd <= rival.sizeUsd))
  {
    hide FirstMax, Where;
    WhereAscends(pool, (b: ProfitBreakdown) => b.roiPct >= cfg.minRoiPct);
    var eligible := Eligible(cfg, pool);
    assert rival.roiPct >= cfg.minRoiPct ==> rival in eligible;
    FirstIsSmallest(if eligible != [] then eligible else pool, (b: ProfitBreakdown) => b.netProfitUsd);
  }

  /** What the recommendation is: among the sizes that meet the return bar, or among all that fill when none
      does, the one that nets most, and the smallest of those that net the same. */
  lemma RecommendedIsBest(cfg: ScannerConfig, buyLeg: Leg, sellLeg: Leg, fees: FeeInputs,
                          buyType: VenueType, sellType: VenueType, k: nat)
    requires buyLeg.Usable() && sellLeg.Usable() && k < |SWEEP|
    requires Optimize(cfg, buyLeg, sellLeg, fees, buyType, sellType).Some?
    ensures var best := Optimize(cfg, buyLeg, sellLeg, fees, buyType, sellType).value.0;
      var sat := Saturation(cfg, buyLeg, sellLeg, buyType, sellType);
      var meets := exists j :: 0 <= j < |SWEEP| && ReturnsAt(j, cfg.minRoiPct, sat, buyLeg, sellLeg, fees);
      var rival := SweptAt(k, sat, buyLeg, sellLeg, fees);
      && (meets ==> best.roiPct >= cfg.minRoiPct)
      && (rival.Some? && (meets ==> rival.value.roiPct >= cfg.minRoiPct) ==>
            best.netProfitUsd > rival.value.netProfitUsd
            || (best.netProfitUsd == rival.value.netProfitUsd && best.sizeUsd <= rival.value.sizeUsd))
  {
    hide ComputeAtSize, Saturation, Notional, Swept, Decay, Recommended, MaxRecommended, Eligible, ReturnsAt;
    var sat := Saturation(cfg, buyLeg, sellLeg, buyType, sellType);
    var pool := Swept(|SWEEP|, sat, buyLeg, sellLeg, fees);
    SweepMembers(|SWEEP|, sat, buyLeg, sellLeg, fees);
    SweptAscends(|SWEEP|, sat, buyLeg, sellLeg, fees);
    EligibleIffSome(cfg, sat, buyLeg, sellLeg, fees);
    EligibleIsChosen(cfg, pool);
    var rival := SweptAt(k, sat, buyLeg, sellLeg, fees);
    if rival.Some? && (Eligible(cfg, pool) != [] ==> rival.value.roiPct >= cfg.minRoiPct) {
      RecommendedOfPool(cfg, pool, rival.value);
    }
  }

  lemma EligibleIsChosen(cfg: ScannerConfig, pool: seq<ProfitBreakdown>)
    requires pool != []
    ensures Eligible(cfg, pool) != [] ==> Recommended(cfg, pool).roiPct >= cfg.minRoiPct
  {
    hide FirstMax, Where;
  }

  /** What the sizing profile says: the capital and the saturation are what both legs allow; the largest viable
      position is the largest size tried that nets the dollar bar, or the recommended one when none does; and
      the decay lists the return at each quarter, zero where it does not fill. */
  lemma SizingMeans(cfg: ScannerConfig, buyLeg: Leg, sellLeg: Leg, fees: FeeInputs,
                    buyType: VenueType, sellType: VenueType)
    requires buyLeg.Usable() && sellLeg.Usable()
    requires Optimize(cfg, buyLeg, sellLeg, fees, buyType, sellType).Some?
    ensures var (best, sizing) := Optimize(cfg, buyLeg, sellLeg, fees, buyType, sellType).value;
      var sat := Saturation(cfg, buyLeg, sellLeg, buyType, sellType);
      && sat > 0.0 && sizing.maxCapitalUtilizationUsd == sat && sizing.liquiditySaturationUsd == sat
      && sizing.recommendedSizeUsd == best.sizeUsd
      && (forall k :: 0 <= k < |SWEEP| && NetsAt(k, cfg.minNetProfitUsd, sat, buyLeg, sellLeg, fees)
            && (forall j :: k < j < |SWEEP| ==> !NetsAt(j, cfg.minNetProfitUsd, sat, buyLeg, sellLeg, fees))
            ==> sizing.maxRecommendedPositionUsd == Notional(sat, SWEEP[k]))
      && ((forall k :: 0 <= k < |SWEEP| ==> !NetsAt(k, cfg.minNetProfitUsd, sat, buyLeg, sellLeg, fees))
            ==> sizing.maxRecommendedPositionUsd == best.sizeUsd)
      && DecayOf(sizing.profitDecay, sat, buyLeg, sellLeg, fees)
  {
    hide ComputeAtSize, Saturation, Notional, Swept, Decay, Where, FirstMax, Recommended;
    var sat := Saturation(cfg, buyLeg, sellLeg, buyType, sellType);
    var pool := Swept(|SWEEP|, sat, buyLeg, sellLeg, fees);
    SweepMembers(|SWEEP|, sat, buyLeg, sellLeg, fees);
    DecayPairs(sat, buyLeg, sellLeg, fees);
    var profitable := Profitable(cfg, pool);
    if profitable != [] {
      var top := FirstMax(profitable, (b: ProfitBreakdown) => b.sizeUsd);
      var t :| 0 <= t < |SWEEP| && Some(top) == ComputeAtSize(Notional(sat, SWEEP[t]), buyLeg, sellLeg, fees);
      ComputedSize(Notional(sat, SWEEP[t]), buyLeg, sellLeg, fees);
      assert NetsAt(t, cfg.minNetProfitUsd, sat, buyLeg, sellLeg, fees);
    }
    forall k | 0 <= k < |SWEEP| && NetsAt(k, cfg.minNetProfitUsd, sat, buyLeg, sellLeg, fees)
               && (forall j :: k < j < |SWEEP| ==> !NetsAt(j, cfg.minNetProfitUsd, sat, buyLeg, sellLeg, fees))
      ensures MaxRecommended(cfg, pool) == Notional(sat, SWEEP[k])
    {
      LargestViable(cfg, sat, buyLeg, sellLeg, fees, k);
    }
  }

  /** A size is recommended exactly when both legs allow one above zero and one of the four quarters of it fills. */
  lemma SizingIff(cfg: ScannerConfig, buyLeg: Leg, sellLeg: Leg, fees: FeeInputs,
                  buyType: VenueType, sellType: VenueType)
    requires buyLeg.Usable() && sellLeg.Usable()
    ensures var sat := Saturation(cfg, buyLeg, sellLeg, buyType, sellType);
      Optimize(cfg, buyLeg, sellLeg, fees, buyType, sellType).Some?
      <==> sat > 0.0 && exists k :: 0 <= k < |SWEEP| && SweptAt(k, sat, buyLeg, sellLeg, fees).Some?
  {
    hide ComputeAtSize, Saturation, Notional, Swept, Decay, Recommended, MaxRecommended;
    var sat := Saturation(cfg, buyLeg, sellLeg, buyType, sellType);
    if sat > 0.0 {
      var pool := Swept(|SWEEP|, sat, buyLeg, sellLeg, fees);
      SweepMembers(|SWEEP|, sat, buyLeg, sellLeg, fees);
      if pool != [] {
        assert pool[0] in pool;
        var k :| 0 <= k < |SWEEP| && Some(pool[0]) == ComputeAtSize(Notional(sat, SWEEP[k]), buyLeg, sellLeg, fees);
        assert SweptAt(k, sat, buyLeg, sellLeg, fees).Some?;
      }
      if k :| 0 <= k < |SWEEP| && SweptAt(k, sat, buyLeg, sellLeg, fees).Some? {
        assert SweptAt(k, sat, buyLeg, sellLeg, fees).value in pool;
      }
    }
  }

  lemma LargestViable(cfg: ScannerConfig, sat: real, buyLeg: Leg, sellLeg: Leg, fees: FeeInputs, k: int)
    requires buyLeg.Usable() && sellLeg.Usable() && sat > 0.0 && 0 <= k < |SWEEP|
    requires NetsAt(k, cfg.minNetProfitUsd, sat, buyLeg, sellLeg, fees)
    requires forall j :: k < j < |SWEEP| ==> !NetsAt(j, cfg.minNetProfitUsd, sat, buyLeg, sellLeg, fees)
    ensures var pool := Swept(|SWEEP|, sat, buyLeg, sellLeg, fees);
      pool != [] && MaxRecommended(cfg, pool) == Notional(sat, SWEEP[k])
  {
    hide ComputeAtSize, Notional, Swept, Where, FirstMax, Recommended;
    var pool := Swept(|SWEEP|, sat, buyLeg, sellLeg, fees);
    SweepMembers(|SWEEP|, sat, buyLeg, sellLeg, fees);
    var mine := SweptAt(k, sat, buyLeg, sellLeg, fees).value;
    assert mine in pool && mine in Profitable(cfg, pool);
    var top := FirstMax(Profitable(cfg, pool), (b: ProfitBreakdown) => b.sizeUsd);
    var t :| 0 <= t < |SWEEP| && Some(top) == ComputeAtSize(Notional(sat, SWEEP[t]), buyLeg, sellLeg, fees);
    ComputedSize(Notional(sat, SWEEP[t]), buyLeg, sellLeg, fees);
    ComputedSize(Notional(sat, SWEEP[k]), buyLeg, sellLeg, fees);
    assert NetsAt(t, cfg.minNetProfitUsd, sat, buyLeg, sellLeg, fees);
    if t < k {
      LargerFraction(sat, t, k);
    }
  }

  /** Quarter by quarter, in percent of the saturation, the return there. */
  ghost predicate DecayOf(decay: seq<(real, real)>, sat: real, buyLeg: Leg, sellLeg: Leg, fees: FeeInputs)
    requires buyLeg.Usable() && sellLeg.Usable()
  {
    |decay| == 4 && forall k :: 0 <= k < 4 ==>
      var bd := SweptAt(k, sat, buyLeg, sellLeg, fees);
      decay[k] == (25.0 * (k + 1) as real, if bd.Some? then bd.value.roiPct else 0.0)
  }

  lemma {:induction false} DecayAt(n: nat, sat: real, buyLeg: Leg, sellLeg: Leg, fees: FeeInputs)
    requires n <= |SWEEP| && buyLeg.Usable() && sellLeg.Usable()
    ensures var decay := Decay(n, sat, buyLeg, sellLeg, fees);
      |decay| == n && forall k :: 0 <= k < n ==>
        var bd := SweptAt(k, sat, buyLeg, sellLeg, fees);
        decay[k] == (100.0 * SWEEP[k], if bd.Some? then bd.value.roiPct else 0.0)
  {
    hide ComputeAtSize;
    if n > 0 {
      DecayAt(n - 1, sat, buyLeg, sellLeg, fees);
    }
  }

  lemma DecayPairs(sat: real, buyLeg: Leg, sellLeg: Leg, fees: FeeInputs)
    requires buyLeg.Usable() && sellLeg.Usable()
    ensures DecayOf(Decay(|SWEEP|, sat, buyLeg, sellLeg, fees), sat, buyLeg, sellLeg, fees)
  {
    hide SweptAt, Decay;
    DecayAt(|SWEEP|, sat, buyLeg, sellLeg, fees);
    forall k | 0 <= k < 4 ensures 100.0 * SWEEP[k] == 25.0 * (k + 1) as real {
    }
  }

  ghost predicate SweepSizeClears(k: int, cfg: ScannerConfig, sat: real, buyLeg: Leg, sellLeg: Leg, fees: FeeInputs)
    requires 0 <= k < |SWEEP| && buyLeg.Usable() && sellLeg.Usable()
  {
    var bd := ComputeAtSize(Notional(sat, SWEEP[k]), buyLeg, sellLeg, fees);
    bd.Some? && ClearsGateOne(cfg, bd.value)
  }

  /** Every sweep size fills on the buy leg within that leg's tolerance. */
  lemma SweepFitsBuyLeg(cfg: ScannerConfig, buyLeg: Leg, sellLeg: Leg, buyType: VenueType, sellType: VenueType, k: nat)
    requires SoundTrade(buyLeg, sellLeg) && cfg.InRange() && k < |SWEEP|
    requires Saturation(cfg, buyLeg, sellLeg, buyType, sellType) > 0.0
    ensures var size := Notional(Saturation(cfg, buyLeg, sellLeg, buyType, sellType), SWEEP[k]);
      && buyLeg.FillPrice(size).Some?
      && (buyLeg.CexBookLeg? ==>
            SlippagePct(buyLeg.FillPrice(size).value, buyLeg.BestPrice().value) <= cfg.MaxSlippagePct(buyType))
      && (buyLeg.DexPoolLeg? ==>
            SlippagePct(buyLeg.FillPrice(size).value, buyLeg.BestPrice().value / (1.0 - buyLeg.FeeRate()))
            <= cfg.MaxSlippagePct(buyType))
  {
    var sat := Saturation(cfg, buyLeg, sellLeg, buyType, sellType);
    assert 0.0 < Notional(sat, SWEEP[k]) <= sat;
    BestIsPositive(buyLeg);
    LimitIsWithinTolerance(buyLeg, cfg.MaxSlippagePct(buyType), Notional(sat, SWEEP[k]));
  }

  /** On a book, the sale fills exactly when the coins bought fit in the bids. */
  lemma SaleFillsIff(sizeUsd: real, buyLeg: Leg, sellLeg: Leg)
    requires SoundTrade(buyLeg, sellLeg) && sellLeg.CexBookLeg? && sizeUsd > 0.0
    requires buyLeg.FillPrice(sizeUsd).Some?
    ensures buyLeg.FillPrice(sizeUsd).value > 0.0
    ensures FillsAt(sizeUsd, buyLeg, sellLeg).Some? <==>
              sizeUsd / buyLeg.FillPrice(sizeUsd).value <= Depth(sellLeg.book.bids)
  {
    hide Notional;
    BuyFillAtOrAboveBest(buyLeg, sizeUsd);
    BestIsPositive(buyLeg);
    BestIsPositive(sellLeg);
    var baseSize := sizeUsd / buyLeg.FillPrice(sizeUsd).value;
    PaidExactly(sizeUsd, buyLeg.FillPrice(sizeUsd).value);
    BaseFromNotional(baseSize, sellLeg.BestPrice().value);
    FillableIffWithinDepth(sellLeg.book.bids, baseSize);
  }

  /** The sale keeps its own leg's tolerance whenever what the coins bought are worth at the sell top,
      size * sellBest / buyFill, is within that leg's limit. */
  lemma SaleWithinToleranceIf(sizeUsd: real, buyLeg: Leg, sellLeg: Leg, tol: real)
    requires SoundTrade(buyLeg, sellLeg) && sizeUsd > 0.0 && tol >= 0.0 && buyLeg.FillPrice(sizeUsd).Some?
    requires buyLeg.FillPrice(sizeUsd).value > 0.0 && sellLeg.BestPrice().Some?
    requires Notional(sizeUsd / buyLeg.FillPrice(sizeUsd).value, sellLeg.BestPrice().value) <= sellLeg.MaxSizeUsd(tol)
    ensures FillsAt(sizeUsd, buyLeg, sellLeg).Some?
    ensures var fill, best := FillsAt(sizeUsd, buyLeg, sellLeg).value.sellFill, sellLeg.BestPrice().value;
      && fill > 0.0
      && (sellLeg.CexBookLeg? ==> SlippagePct(fill, best) <= tol)
      && (sellLeg.DexPoolLeg? ==> fill * (1.0 + tol / 100.0) >= best * (1.0 - sellLeg.FeeRate()))
  {
    hide Notional, Leg.FillPrice, Leg.BestPrice, Leg.MaxSizeUsd, ZeroSizePrice, SlippagePct;
    BestIsPositive(buyLeg);
    BestIsPositive(sellLeg);
    var fill := buyLeg.FillPrice(sizeUsd).value;
    PaidExactly(sizeUsd, fill);
    PositiveNotional(sizeUsd / fill, sellLeg.BestPrice().value);
    var notional := Notional(sizeUsd / fill, sellLeg.BestPrice().value);
    SellFillAtOrBelowBest(sellLeg, notional);
    LimitIsWithinTolerance(sellLeg, tol, notional);
  }

  /** Conversely on a book: the coins bought that fit in its limit are all within tolerance, and unless the limit is
      the whole book, a sale one search cell of its level past the limit no longer fills or has left the
      tolerance. */
  lemma BookSaleWithinToleranceIff(sizeUsd: real, buyLeg: Leg, sellLeg: Leg, tol: real)
    requires SoundTrade(buyLeg, sellLeg) && sellLeg.CexBookLeg? && sizeUsd > 0.0 && tol >= 0.0
    requires buyLeg.FillPrice(sizeUsd).Some? && buyLeg.FillPrice(sizeUsd).value > 0.0
    ensures sellLeg.Levels() != [] && sellLeg.BestPrice().Some?
    ensures var base := sizeUsd / buyLeg.FillPrice(sizeUsd).value;
      var limit := MaxFillable(sellLeg.Levels(), sellLeg.BestPrice().value, tol);
      && (base <= limit ==> SaleKeepsTolerance(sizeUsd, buyLeg, sellLeg, tol))
      && (limit == Depth(sellLeg.Levels()) ==> (SaleKeepsTolerance(sizeUsd, buyLeg, sellLeg, tol) <==> base <= limit))
      && (limit != Depth(sellLeg.Levels()) ==>
            exists i :: LimitLiesIn(sellLeg, i, limit)
                        && (base >= limit + LimitCell(sellLeg, i) ==>
                              !SaleKeepsTolerance(sizeUsd, buyLeg, sellLeg, tol)))
  {
    hide Notional, FillsAt, MaxFillable, BookSlip, Depth;
    BestIsPositive(sellLeg);
    var base := sizeUsd / buyLeg.FillPrice(sizeUsd).value;
    PaidExactly(sizeUsd, buyLeg.FillPrice(sizeUsd).value);
    var limit := MaxFillable(sellLeg.Levels(), sellLeg.BestPrice().value, tol);
    BookLimitIsExact(sellLeg.Levels(), tol);
    SaleFillsIff(sizeUsd, buyLeg, sellLeg);
    if FillsAt(sizeUsd, buyLeg, sellLeg).Some? {
      SaleSlips(sizeUsd, buyLeg, sellLeg);
    }
    if limit != Depth(sellLeg.Levels()) {
      var i :| 0 <= i < |sellLeg.Levels()| && ExceedsWithinCell(sellLeg.Levels(), i, tol, limit);
      if base >= limit + LimitCell(sellLeg, i) && base <= Depth(sellLeg.Levels()) {
        SlipMonotone(sellLeg.Levels(), limit + LimitCell(sellLeg, i), base);
      }
    }
  }

  /** The limit lies in this level of the book, short of its end. */
  predicate LimitLiesIn(leg: Leg, i: int, limit: real) {
    0 <= i < |leg.Levels()| && DepthTo(leg.Levels(), i) <= limit
    && limit + LimitCell(leg, i) <= DepthTo(leg.Levels(), i + 1) && LimitCell(leg, i) > 0.0
  }

  /** The precision of the search for the limit within a level. */
  function LimitCell(leg: Leg, i: int): real
    requires 0 <= i < |leg.Levels()|
  {
    Halved(leg.Levels()[i].qty, BOOK_STEPS)
  }

  /** The sale fills, at a price within this tolerance of the best bid. */
  ghost predicate SaleKeepsTolerance(sizeUsd: real, buyLeg: Leg, sellLeg: Leg, tol: real)
    requires buyLeg.Usable() && sellLeg.Usable() && sellLeg.BestPrice().Some?
  {
    var f := FillsAt(sizeUsd, buyLeg, sellLeg);
    f.Some? && SlippagePct(f.value.sellFill, sellLeg.BestPrice().value) <= tol
  }

  lemma SaleSlips(sizeUsd: real, buyLeg: Leg, sellLeg: Leg)
    requires SoundTrade(buyLeg, sellLeg) && sellLeg.CexBookLeg? && sizeUsd > 0.0
    requires FillsAt(sizeUsd, buyLeg, sellLeg).Some? && buyLeg.FillPrice(sizeUsd).Some?
    ensures sellLeg.Levels() != [] && sellLeg.BestPrice().Some? && buyLeg.FillPrice(sizeUsd).value > 0.0
    ensures SlippagePct(FillsAt(sizeUsd, buyLeg, sellLeg).value.sellFill, sellLeg.BestPrice().value)
            == BookSlip(sellLeg.Levels(), sizeUsd / buyLeg.FillPrice(sizeUsd).value)
  {
    hide Notional, Cost;
    BestIsPositive(sellLeg);
    var base := sizeUsd / buyLeg.FillPrice(sizeUsd).value;
    BaseFromNotional(base, sellLeg.BestPrice().value);
  }

  /** And on a pool, where every sale fills: it keeps the tolerance, judged by what is paid for a unit of quote,
      exactly while the coins, less the fee, come to no more of the reserve than that; which for coins up to the
      whole reserve is the closed form of the leg's own limit. */
  lemma PoolSaleWithinToleranceIff(sizeUsd: real, buyLeg: Leg, sellLeg: Leg, tol: real)
    requires SoundTrade(buyLeg, sellLeg) && sellLeg.DexPoolLeg? && sizeUsd > 0.0
    requires buyLeg.FillPrice(sizeUsd).Some? && buyLeg.FillPrice(sizeUsd).value > 0.0
    ensures FillsAt(sizeUsd, buyLeg, sellLeg).Some? && FillsAt(sizeUsd, buyLeg, sellLeg).value.sellFill > 0.0
    ensures var base := sizeUsd / buyLeg.FillPrice(sizeUsd).value;
      var fill := FillsAt(sizeUsd, buyLeg, sellLeg).value.sellFill;
      var zero := ZeroSizePrice(sellLeg.ReserveBase(), sellLeg.ReserveQuote(), sellLeg.FeeRate());
      && (SlippagePct(1.0 / fill, zero) <= tol
          <==> base * (1.0 - sellLeg.FeeRate()) / sellLeg.ReserveBase() * 100.0 <= tol)
      && (base <= sellLeg.ReserveBase() ==>
            (SlippagePct(1.0 / fill, zero) <= tol
             <==> base <= ImpactBudget(sellLeg.ReserveBase(), sellLeg.FeeRate(), tol)))
  {
    hide Notional, ImpactBudget, ZeroSizePrice, SlippagePct;
    BestIsPositive(buyLeg);
    BestIsPositive(sellLeg);
    var base := sizeUsd / buyLeg.FillPrice(sizeUsd).value;
    PaidExactly(sizeUsd, buyLeg.FillPrice(sizeUsd).value);
    BaseFromNotional(base, sellLeg.BestPrice().value);
    PositiveNotional(base, sellLeg.BestPrice().value);
    SellFillAtOrBelowBest(sellLeg, Notional(base, sellLeg.BestPrice().value));
    PoolSaleImpact(sellLeg.ReserveBase(), sellLeg.ReserveQuote(), base, sellLeg.FeeRate(), tol);
  }

  lemma PoolSaleImpact(rb: real, rq: real, base: real, fee: real, tol: real)
    requires rb > 0.0 && rq > 0.0 && base > 0.0 && 0.0 <= fee < 1.0
    ensures PoolSellPrice(rb, rq, base, fee).Some? && PoolSellPrice(rb, rq, base, fee).value > 0.0
    ensures var slip := SlippagePct(1.0 / PoolSellPrice(rb, rq, base, fee).value, ZeroSizePrice(rb, rq, fee));
      && slip == base * (1.0 - fee) / rb * 100.0
      && (base <= rb ==> (slip <= tol <==> base <= ImpactBudget(rb, fee, tol)))
  {
    hide ImpactBudget;
    SwapKeepsProduct(rb, rq, base, fee);
    ImpactIsLinear(rb, rq, base, fee);
    Reciprocal(AmmOutput(rb, rq, base, fee), base);
    if base <= rb {
      OverBudgetIff(rb, rq, base, fee, tol);
    }
  }

  function OneLevelBook(ask: BookLevel, bid: BookLevel): OrderBook {
    OrderBook([bid], [ask], 0.0, None, None, None, None)
  }

  function OneLevelLeg(level: BookLevel, side: Side): Leg {
    CexBookLeg(OneLevelBook(level, level), side)
  }

  /** The sell leg is sized by the coins bought, so it can outgrow its own limit: here both legs
      allow 100 USD, and selling what 100 USD buys is impossible while half of it fills. */
  lemma SellLegCanOverrun(cfg: ScannerConfig)
    requires cfg.InRange()
    ensures var buyLeg, sellLeg := OneLevelLeg(BookLevel(1.0, 100.0), Buy), OneLevelLeg(BookLevel(2.0, 50.0), Sell);
      && SoundTrade(buyLeg, sellLeg)
      && Saturation(cfg, buyLeg, sellLeg, CEX, CEX) == 100.0
      && FillsAt(100.0, buyLeg, sellLeg).None?
      && FillsAt(50.0, buyLeg, sellLeg).Some?
  {
    var ask, bid := BookLevel(1.0, 100.0), BookLevel(2.0, 50.0);
    OneLevelFacts(ask, Buy, cfg.maxSlippageCexPct, 100.0);
    OneLevelFacts(ask, Buy, cfg.maxSlippageCexPct, 50.0);
    OneLevelFacts(bid, Sell, cfg.maxSlippageCexPct, 100.0);
    SaleOnOneLevel(ask, bid, 100.0);
    SaleOnOneLevel(ask, bid, 50.0);
  }

  lemma SaleOnOneLevel(ask: BookLevel, bid: BookLevel, sizeUsd: real)
    requires ask.price == 1.0 && ask.qty > 0.0 && bid.price > 0.0 && bid.qty > 0.0 && 0.0 < sizeUsd <= ask.qty
    ensures FillsAt(sizeUsd, OneLevelLeg(ask, Buy), OneLevelLeg(bid, Sell)).Some? <==> sizeUsd <= bid.qty
  {
    hide MaxFillable, FillsAt;
    OneLevelFacts(ask, Buy, 0.0, sizeUsd);
    OneLevelFacts(bid, Sell, 0.0, sizeUsd);
    SaleFillsIff(sizeUsd, OneLevelLeg(ask, Buy), OneLevelLeg(bid, Sell));
  }

  lemma OneLevelFacts(level: BookLevel, side: Side, tol: real, size: real)
    requires level.price > 0.0 && level.qty > 0.0 && tol >= 0.0
    ensures var leg := OneLevelLeg(level, side);
      && leg.Sound() && leg.Usable() && Depth(leg.Levels()) == level.qty
      && leg.MaxSizeUsd(tol) == Notional(level.qty, level.price)
      && (level.price == 1.0 && 0.0 < size <= level.qty ==> leg.FillPrice(size) == Some(level.price))
  {
    OneLevelLimit(level, tol);
    assert Depth([level]) == level.qty + Depth([]);
    if level.price == 1.0 && 0.0 < size <= level.qty {
      OneLevelFill(level, size);
      assert size / 1.0 == size;
    }
  }

  lemma OneLevelLimit(level: BookLevel, tol: real)
    requires level.price > 0.0 && level.qty > 0.0 && tol >= 0.0
    ensures MaxFillable([level], level.price, tol) == level.qty
  {
    var levels := [level];
    assert Notional(level.qty, level.price) / level.qty == level.price;
    assert FillSlip(0.0 + Notional(level.qty, level.price), 0.0 + level.qty, level.price) == 0.0;
    assert MaxFillFrom(levels, 1, level.price, tol, level.qty, Notional(level.qty, level.price)) == level.qty;
  }

  lemma OneLevelFill(level: BookLevel, size: real)
    requires level.price > 0.0 && 0.0 < size <= level.qty
    ensures Vwap([level], size) == Some(level.price)
  {
    assert Notional(size, level.price) / size == level.price;
  }
}
