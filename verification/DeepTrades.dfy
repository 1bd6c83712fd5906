/** What a candidate can earn when the books behind given top prices may be of any depth
    (src/scanner/profit/engine.py, src/scanner/assembler.py). */
module DeepTrades {
  import opened Prelude
  import opened Market
  import opened Config
  import opened Mathx
  import opened LiquidityLeg
  import opened ProfitEngine
  import opened Signals
  import opened Validator
  import opened Assembler

  // ── what is earned depends on the ratio of the two fills ──

  /** Percent of the notional left after every rate, when each unit paid fetches `ratio`. */
  function MarginPct(fees: FeeInputs, ratio: real): real {
    (ratio * (1.0 - OrZero(fees.sellFeeRate)) - 1.0 - OrZero(fees.buyFeeRate)
     - fees.conversionCostBps / 10000.0) * 100.0
  }

  lemma MarginOrder(fees: FeeInputs, r: real, t: real)
    requires OrZero(fees.sellFeeRate) < 1.0
    ensures r <= t <==> MarginPct(fees, r) <= MarginPct(fees, t)
  {
    SignKept(t - r, 1.0 - OrZero(fees.sellFeeRate));
    assert (t - r) * (1.0 - OrZero(fees.sellFeeRate)) * 100.0 == MarginPct(fees, t) - MarginPct(fees, r);
  }

  /** The return at a size is the margin at its fill ratio, less the fixed costs per notional; and a trade
      that earns anything grosses at least its share of the top spread. */
  lemma ReturnByRatio(size: real, buyLeg: Leg, sellLeg: Leg, fees: FeeInputs)
    requires SoundTrade(buyLeg, sellLeg) && fees.NonNegative()
    requires ComputeAtSize(size, buyLeg, sellLeg, fees).Some?
    ensures size > 0.0 && FillsAt(size, buyLeg, sellLeg).Some?
    ensures buyLeg.BestPrice().Some? && sellLeg.BestPrice().Some?
    ensures var bd, f := ComputeAtSize(size, buyLeg, sellLeg, fees).value, FillsAt(size, buyLeg, sellLeg).value;
      var buyBest, sellBest := buyLeg.BestPrice().value, sellLeg.BestPrice().value;
      && f.buyFill >= buyBest > 0.0 && 0.0 < f.sellFill <= sellBest
      && bd.roiPct == MarginPct(fees, f.sellFill / f.buyFill) - fees.FixedUsd() / size * 100.0
      && Notional(size, bd.roiPct) == Notional(100.0, bd.netProfitUsd)
      && (bd.netProfitUsd > 0.0 ==> bd.grossProfitUsd >= Notional(size, 1.0 - buyBest / sellBest))
  {
    hide ComputeAtSize, Notional, PriceImpact, RateFees, Leg.FillPrice, Leg.BestPrice, Leg.PoolFeeCostUsd, MarginPct;
    hide FillsAt;
    GrossOf(size, buyLeg, sellLeg, fees);
    ProfitAccounting(size, buyLeg, sellLeg, fees);
    FillsAreHonest(size, buyLeg, sellLeg);
    var f, bd := FillsAt(size, buyLeg, sellLeg).value, ComputeAtSize(size, buyLeg, sellLeg, fees).value;
    RoiOfRatio(size, f, fees, bd.netProfitUsd, bd.roiPct);
    if bd.netProfitUsd > 0.0 {
      GrossShare(size, f, buyLeg.BestPrice().value, sellLeg.BestPrice().value, fees, bd.netProfitUsd);
    }
  }

  lemma GrossOf(size: real, buyLeg: Leg, sellLeg: Leg, fees: FeeInputs)
    requires buyLeg.Usable() && sellLeg.Usable() && ComputeAtSize(size, buyLeg, sellLeg, fees).Some?
    ensures FillsAt(size, buyLeg, sellLeg).Some? && buyLeg.BestPrice().Some? && sellLeg.BestPrice().Some?
    ensures ComputeAtSize(size, buyLeg, sellLeg, fees).value.grossProfitUsd
            == Notional(FillsAt(size, buyLeg, sellLeg).value.baseSize,
                        sellLeg.BestPrice().value - buyLeg.BestPrice().value)
  {
    hide Notional;
  }

  lemma Proceeds(size: real, f: Fills)
    requires f.buyFill > 0.0 && Notional(f.baseSize, f.buyFill) == size
    ensures Notional(f.baseSize, f.sellFill) == Notional(size, f.sellFill / f.buyFill)
  {
    var ratio := f.sellFill / f.buyFill;
    assert ratio * f.buyFill == f.sellFill;
    assert f.baseSize * (f.buyFill * ratio) == (f.baseSize * f.buyFill) * ratio;
  }

  lemma RoiOfRatio(size: real, f: Fills, fees: FeeInputs, net: real, roi: real)
    requires size > 0.0 && f.buyFill > 0.0 && Notional(f.baseSize, f.buyFill) == size
    requires net == Notional(f.baseSize, f.sellFill) - size - RateFees(size, f, fees) - fees.FixedUsd()
                    - Notional(size, fees.conversionCostBps / 10000.0)
    requires Notional(size, roi) == Notional(100.0, net)
    ensures roi == MarginPct(fees, f.sellFill / f.buyFill) - fees.FixedUsd() / size * 100.0
  {
    var ratio, fixed := f.sellFill / f.buyFill, fees.FixedUsd();
    Proceeds(size, f);
    var y := fixed / size;
    assert y * size == fixed;
    MarginScaled(size, ratio, OrZero(fees.buyFeeRate), OrZero(fees.sellFeeRate), fees.conversionCostBps / 10000.0, y);
    var gap := roi - (MarginPct(fees, ratio) - y * 100.0);
    assert gap * size == 0.0 by {
      assert gap * size == roi * size - (MarginPct(fees, ratio) - y * 100.0) * size;
    }
    ZeroProduct(gap, size);
  }

  lemma MarginScaled(size: real, ratio: real, bf: real, sf: real, c: real, y: real)
    ensures ((ratio * (1.0 - sf) - 1.0 - bf - c) * 100.0 - y * 100.0) * size
            == 100.0 * (Notional(size, ratio) - size - (Notional(size, bf) + Notional(Notional(size, ratio), sf))
                        - y * size - Notional(size, c))
  {
  }

  lemma GrossShare(size: real, f: Fills, buyBest: real, sellBest: real, fees: FeeInputs, net: real)
    requires size > 0.0 && f.baseSize > 0.0 && Notional(f.baseSize, f.buyFill) == size && fees.NonNegative()
    requires f.buyFill >= buyBest > 0.0 && 0.0 < f.sellFill <= sellBest
    requires net == Notional(f.baseSize, f.sellFill) - size - RateFees(size, f, fees) - fees.FixedUsd()
                    - Notional(size, fees.conversionCostBps / 10000.0)
    requires net > 0.0
    ensures Notional(f.baseSize, sellBest - buyBest) >= Notional(size, 1.0 - buyBest / sellBest)
  {
    var share := 1.0 - buyBest / sellBest;
    assert share * sellBest == sellBest - buyBest;
    ProfitNeedsProceeds(size, f, fees, net);
    NotionalOrder(f.baseSize, f.sellFill, sellBest);
    DearerSold(f.baseSize, f.buyFill, f.sellFill);
    SignKept(share, sellBest);
    ScaledShare(f.baseSize, sellBest, share, size);
  }

  lemma DearerSold(base: real, x: real, y: real)
    requires base > 0.0 && Notional(base, y) > Notional(base, x)
    ensures y > x
  {
    assert (y - x) * base == Notional(base, y) - Notional(base, x);
    SignKept(y - x, base);
  }

  lemma ProfitNeedsProceeds(size: real, f: Fills, fees: FeeInputs, net: real)
    requires size > 0.0 && f.baseSize > 0.0 && f.sellFill > 0.0 && fees.NonNegative()
    requires net == Notional(f.baseSize, f.sellFill) - size - RateFees(size, f, fees) - fees.FixedUsd()
                    - Notional(size, fees.conversionCostBps / 10000.0)
    requires net > 0.0
    ensures Notional(f.baseSize, f.sellFill) > size
  {
    NonNegativeProduct(f.baseSize, f.sellFill);
    NonNegativeProduct(size, OrZero(fees.buyFeeRate));
    NonNegativeProduct(Notional(f.baseSize, f.sellFill), OrZero(fees.sellFeeRate));
    NonNegativeProduct(size, fees.conversionCostBps / 10000.0);
  }

  lemma ScaledShare(base: real, best: real, share: real, size: real)
    requires share >= 0.0 && Notional(base, best) >= size
    ensures Notional(base, share * best) >= Notional(size, share)
  {
    assert base * (share * best) == share * (base * best);
    NonNegativeProduct(share, base * best - size);
  }

  // ── when a size clears, the route is published ──

  /** Everything the gates ask of a route besides its profit and its bridge. */
  predicate Permits(cfg: ScannerConfig, env: Environment) {
    && env.liquidityUsd >= cfg.minLiquidityCexUsd && env.liquidityUsd >= cfg.minLiquidityDexUsd
    && env.liquidityScore >= cfg.liquidityScoreFloor && env.confidence >= cfg.confidenceThreshold
    && env.buyStatus.SignalAllowed() && env.sellStatus.SignalAllowed() && env.warmedUp
    && env.stalenessSec <= env.allowedStalenessSec
  }

  predicate BridgeInTime(cfg: ScannerConfig, cand: Candidate) {
    cand.arbType == CROSS_CHAIN ==>
      cand.bridgeName.Some? && (cand.bridgeTimeSec.None? || cand.bridgeTimeSec.value <= cfg.maxBridgeTimeSec)
  }

  /** The recommended size earns no less than any swept size that clears both bars. */
  lemma RecommendedEarnsMost(cfg: ScannerConfig, buyLeg: Leg, sellLeg: Leg, fees: FeeInputs,
                             buyType: VenueType, sellType: VenueType, k: nat)
    requires buyLeg.Usable() && sellLeg.Usable() && k < |SWEEP|
    requires var sat := Saturation(cfg, buyLeg, sellLeg, buyType, sellType);
      sat > 0.0 && SweepSizeClears(k, cfg, sat, buyLeg, sellLeg, fees)
    ensures Optimize(cfg, buyLeg, sellLeg, fees, buyType, sellType).Some?
    ensures var sat := Saturation(cfg, buyLeg, sellLeg, buyType, sellType);
      Optimize(cfg, buyLeg, sellLeg, fees, buyType, sellType).value.0.netProfitUsd
      >= ComputeAtSize(Notional(sat, SWEEP[k]), buyLeg, sellLeg, fees).value.netProfitUsd
  {
    hide ComputeAtSize, Saturation, Notional, Swept, Decay, Where, FirstMax, MaxRecommended;
    var sat := Saturation(cfg, buyLeg, sellLeg, buyType, sellType);
    SweepMembers(|SWEEP|, sat, buyLeg, sellLeg, fees);
    var pool := Swept(|SWEEP|, sat, buyLeg, sellLeg, fees);
    var b := ComputeAtSize(Notional(sat, SWEEP[k]), buyLeg, sellLeg, fees).value;
    assert b in pool && b in Eligible(cfg, pool);
  }

  /** A swept size that clears both bars at a profit publishes a plausible route, if the least swept size is
      tradeable and large enough for the gas. */
  lemma PublishesWhenSizeClears(cfg: ScannerConfig, env: Environment, cand: Candidate, buyBook: OrderBook,
                                sellBook: OrderBook, k: nat)
    requires BooksUsable(cand, Some(buyBook), Some(sellBook)) && k < |SWEEP|
    requires SoundTrade(BuyLegOf(cand, buyBook), SellLegOf(cand, sellBook))
    requires ResolveFees(cfg, env, cand).NonNegative() && cfg.maxGasPctOfGross >= 0.0
    requires Permits(cfg, env) && BridgeInTime(cfg, cand) && FeesKnown(env, cand)
    requires var buyLeg, sellLeg := BuyLegOf(cand, buyBook), SellLegOf(cand, sellBook);
      var fees := ResolveFees(cfg, env, cand);
      var sat := Saturation(cfg, buyLeg, sellLeg, cand.buyLeg.venueType, cand.sellLeg.venueType);
      && sat > 0.0 && LeastSizeSuffices(cfg, fees, buyLeg, sellLeg, Notional(sat, SWEEP[0]))
      && SweepSizeClears(k, cfg, sat, buyLeg, sellLeg, fees)
      && ComputeAtSize(Notional(sat, SWEEP[k]), buyLeg, sellLeg, fees).value.netProfitUsd > 0.0
    ensures FullPipeline(cfg, env, cand, Some(buyBook), Some(sellBook)).Published?
  {
    hide ComputeAtSize, Saturation, Optimize, Notional, Leg.BestPrice, Leg.FillPrice, FillsAt, ResolveFees;
    hide FeeInputs.ResolvedCategories, LeastSizeSuffices, SweepSizeClears;
    var buyLeg, sellLeg, fees := BuyLegOf(cand, buyBook), SellLegOf(cand, sellBook), ResolveFees(cfg, env, cand);
    var bt, st := cand.buyLeg.venueType, cand.sellLeg.venueType;
    var sat := Saturation(cfg, buyLeg, sellLeg, bt, st);
    RecommendedEarnsMost(cfg, buyLeg, sellLeg, fees, bt, st, k);
    RecommendationIsComplete(cfg, buyLeg, sellLeg, fees, bt, st);
    var (best, sizing) := Optimize(cfg, buyLeg, sellLeg, fees, bt, st).value;
    var j :| 0 <= j < |SWEEP| && Some(best) == ComputeAtSize(Notional(sat, SWEEP[j]), buyLeg, sellLeg, fees);
    SweptPassesGates(cfg, buyLeg, sellLeg, fees, sat, j);
    ResolvedMeansKnown(cfg, env, cand);
    PassesIff(cfg, ContextFor(env, cand, best, sizing));
  }

  /** The least swept size is tradeable, and its gross pays for the gas; and the tops are plausible. */
  predicate LeastSizeSuffices(cfg: ScannerConfig, fees: FeeInputs, buyLeg: Leg, sellLeg: Leg, least: real) {
    && buyLeg.BestPrice().Some? && sellLeg.BestPrice().Some? && sellLeg.BestPrice().value > 0.0
    && least >= cfg.minTradeableSizeUsd
    && TopSpreadPct(buyLeg.BestPrice().value, sellLeg.BestPrice().value) <= cfg.implausibleSpreadPct
    && OrZero(fees.gasFeeUsd) * 100.0
       <= Notional(least, 1.0 - buyLeg.BestPrice().value / sellLeg.BestPrice().value) * cfg.maxGasPctOfGross
  }

  lemma SweepOrder(sat: real, j: nat)
    requires sat > 0.0 && j < |SWEEP|
    ensures 0.0 < Notional(sat, SWEEP[0]) <= Notional(sat, SWEEP[j]) <= sat <= 4.0 * Notional(sat, SWEEP[j])
  {
  }

  lemma SweptPassesGates(cfg: ScannerConfig, buyLeg: Leg, sellLeg: Leg, fees: FeeInputs, sat: real, j: nat)
    requires SoundTrade(buyLeg, sellLeg) && fees.NonNegative() && sat > 0.0 && j < |SWEEP|
    requires LeastSizeSuffices(cfg, fees, buyLeg, sellLeg, Notional(sat, SWEEP[0])) && cfg.maxGasPctOfGross >= 0.0
    requires ComputeAtSize(Notional(sat, SWEEP[j]), buyLeg, sellLeg, fees).Some?
    requires ComputeAtSize(Notional(sat, SWEEP[j]), buyLeg, sellLeg, fees).value.netProfitUsd > 0.0
    ensures var bd := ComputeAtSize(Notional(sat, SWEEP[j]), buyLeg, sellLeg, fees).value;
      && bd.sizeUsd >= cfg.minTradeableSizeUsd && bd.grossSpreadPct <= cfg.implausibleSpreadPct
      && bd.resolvedCategories == fees.ResolvedCategories()
      && (bd.grossProfitUsd <= 0.0 || bd.gasFeesUsd / bd.grossProfitUsd * 100.0 <= cfg.maxGasPctOfGross)
  {
    hide ComputeAtSize, Leg.BestPrice, FillsAt, Notional, FeeInputs.ResolvedCategories, Leg.Sound;
    var size := Notional(sat, SWEEP[j]);
    SweepOrder(sat, j);
    SpreadOfBreakdown(size, buyLeg, sellLeg, fees);
    ReturnByRatio(size, buyLeg, sellLeg, fees);
    PlainFigures(size, buyLeg, sellLeg, fees);
    var bd := ComputeAtSize(size, buyLeg, sellLeg, fees).value;
    var share := 1.0 - buyLeg.BestPrice().value / sellLeg.BestPrice().value;
    if bd.grossProfitUsd > 0.0 {
      GasShare(bd.gasFeesUsd, bd.grossProfitUsd, Notional(sat, SWEEP[0]), size, share, cfg.maxGasPctOfGross);
    }
  }

  lemma PlainFigures(size: real, buyLeg: Leg, sellLeg: Leg, fees: FeeInputs)
    requires buyLeg.Usable() && sellLeg.Usable() && ComputeAtSize(size, buyLeg, sellLeg, fees).Some?
    ensures var bd := ComputeAtSize(size, buyLeg, sellLeg, fees).value;
      bd.sizeUsd == size && bd.gasFeesUsd == OrZero(fees.gasFeeUsd)
  {
    hide Notional, FillsAt;
  }

  lemma GasShare(gas: real, gross: real, least: real, size: real, share: real, maxPct: real)
    requires gross > 0.0 && gross >= Notional(size, share) && 0.0 < least <= size && maxPct >= 0.0 && gas >= 0.0
    requires gas * 100.0 <= Notional(least, share) * maxPct
    ensures gas / gross * 100.0 <= maxPct
  {
    var x := gas / gross;
    assert x * gross == gas;
    if share >= 0.0 {
      NonNegativeProduct(size - least, share);
      NonNegativeProduct(gross - Notional(least, share), maxPct);
    } else {
      SignKept(-share, least);
      NonNegativeProduct(-Notional(least, share), maxPct);
      NonNegativeProduct(gross, maxPct);
    }
    assert gas * 100.0 <= gross * maxPct;
    SignKept(maxPct - x * 100.0, gross);
  }

  // ── what a pool does to a price ──

  /** The part of the input a pool's fee leaves; a book leaves all of it. */
  function Kept(leg: Leg): real {
    if leg.DexPoolLeg? then 1.0 - leg.FeeRate() else 1.0
  }

  lemma KeptIsFraction(leg: Leg)
    requires leg.Sound()
    ensures 0.0 < Kept(leg) <= 1.0 && (leg.DexPoolLeg? ==> Kept(leg) < 1.0)
  {
  }

  /** A buy pays the fee, and on a pool also an impact linear in the size. */
  lemma BuyFillFactor(leg: Leg, size: real)
    requires leg.Sound() && leg.side == Buy && size > 0.0
    ensures leg.Usable() && leg.BestPrice().Some?
    ensures leg.FillPrice(size).Some? ==>
      var fill, best := leg.FillPrice(size).value, leg.BestPrice().value;
      && fill > 0.0 && best > 0.0
      && Notional(fill, Kept(leg)) >= best
      && (leg.DexPoolLeg? ==> fill * Kept(leg) * leg.ReserveQuote() == best * (leg.ReserveQuote() + size * Kept(leg)))
  {
    hide PoolBuyPrice, Vwap;
    BestIsPositive(leg);
    BuyFillAtOrAboveBest(leg, size);
    if leg.DexPoolLeg? {
      PoolBuyFactor(leg.ReserveQuote(), leg.ReserveBase(), size, leg.FeeRate());
    }
  }

  lemma PoolBuyFactor(rq: real, rb: real, n: real, fee: real)
    requires rq > 0.0 && rb > 0.0 && n > 0.0 && 0.0 <= fee < 1.0
    ensures PoolBuyPrice(rq, rb, n, fee).Some?
    ensures var fill := PoolBuyPrice(rq, rb, n, fee).value;
      fill * (1.0 - fee) >= rq / rb && fill * (1.0 - fee) * rq == rq / rb * (rq + n * (1.0 - fee))
  {
    hide PoolBuyPrice, BuyCurve;
    PoolBuyFacts(rq, rb, n, fee);
    BuyFactorOf(rq, rb, n, 1.0 - fee, PoolBuyPrice(rq, rb, n, fee).value);
  }

  lemma BuyFactorOf(rq: real, rb: real, n: real, g: real, fill: real)
    requires rq > 0.0 && rb > 0.0 && g > 0.0 && fill == BuyCurve(rq, rb, n, g)
    ensures fill * g * rq == rq / rb * (rq + n * g)
  {
    var d, spot := rb * g, rq / rb;
    assert d > 0.0;
    assert spot * rb == rq && fill * d == rq + n * g;
    assert fill * g * rq == (fill * (rb * g)) * spot by {
      assert fill * g * (spot * rb) == (fill * (rb * g)) * spot;
    }
  }

  /** A sale is paid at most the top price less the fee, and on a pool loses a share that grows with its size. */
  lemma SellFillFactor(leg: Leg, base: real)
    requires leg.Sound() && leg.side == Sell && base > 0.0
    ensures leg.Usable() && leg.BestPrice().Some?
    ensures var best := leg.BestPrice().value;
      leg.FillPrice(Notional(base, best)).Some? ==>
      var fill := leg.FillPrice(Notional(base, best)).value;
      && best > 0.0 && 0.0 < fill <= Notional(best, Kept(leg))
      && (leg.DexPoolLeg? ==> fill * (leg.ReserveBase() + base * Kept(leg)) == best * Kept(leg) * leg.ReserveBase())
  {
    hide PoolSellPrice, Vwap;
    BestIsPositive(leg);
    var best := leg.BestPrice().value;
    PositiveNotional(base, best);
    SellFillAtOrBelowBest(leg, Notional(base, best));
    if leg.DexPoolLeg? {
      BaseFromNotional(base, best);
      PoolSellFactor(leg.ReserveBase(), leg.ReserveQuote(), base, leg.FeeRate());
    }
  }

  lemma PoolSellFactor(rb: real, rq: real, base: real, fee: real)
    requires rq > 0.0 && rb > 0.0 && base > 0.0 && 0.0 <= fee < 1.0
    ensures PoolSellPrice(rb, rq, base, fee).Some?
    ensures var fill := PoolSellPrice(rb, rq, base, fee).value;
      0.0 < fill <= rq / rb * (1.0 - fee) && fill * (rb + base * (1.0 - fee)) == rq / rb * (1.0 - fee) * rb
  {
    hide PoolSellPrice;
    PoolSellFacts(rb, rq, base, fee);
    var spot := rq / rb;
    assert spot * rb == rq;
    assert spot * (1.0 - fee) * rb == (spot * rb) * (1.0 - fee);
  }

  // ── the size limit of a pool, in cells of 2^-60 of its reserve ──

  function Cells(n: nat): (c: nat)
    ensures c >= 1 && c as real == Pow2(n)
  {
    if n == 0 then 1 else 2 * Cells(n - 1)
  }

  /** The bisection stops on a point of its grid. */
  lemma {:induction false} BisectIsOnGrid(reserveIn: real, reserveOut: real, fee: real, tol: real,
                                          lo: real, hi: real, steps: nat) returns (j: nat)
    requires reserveIn > 0.0 && reserveOut > 0.0 && fee < 1.0 && 0.0 <= lo < hi
    ensures j < Cells(steps)
    ensures AmmBisect(reserveIn, reserveOut, fee, tol, lo, hi, steps)
            == lo + Notional(j as real, Halved(hi - lo, steps))
    decreases steps
  {
    hide AmmEffectivePrice, SlippagePct, ZeroSizePrice, Halved, Cells, Notional;
    HalvedOnce(hi - lo, steps);
    if steps == 0 {
      j := 0;
      NotionalSplit(0.0, 0.0, hi - lo);
    } else {
      var mid := (lo + hi) / 2.0;
      SwapKeepsProduct(reserveIn, reserveOut, mid, fee);
      var eff := AmmEffectivePrice(reserveIn, reserveOut, mid, fee);
      if eff.None? || SlippagePct(eff.value, ZeroSizePrice(reserveIn, reserveOut, fee)) > tol {
        j := BisectIsOnGrid(reserveIn, reserveOut, fee, tol, lo, mid, steps - 1);
        assert mid - lo == (hi - lo) / 2.0;
      } else {
        j := BisectIsOnGrid(reserveIn, reserveOut, fee, tol, mid, hi, steps - 1);
        assert hi - mid == (hi - lo) / 2.0;
        HalvedIsDivision((hi - lo) / 2.0, steps - 1);
        j := UpperHalf(lo, mid, Halved(hi - lo, steps), j, steps);
      }
    }
  }

  lemma HalvedOnce(width: real, steps: nat)
    ensures Cells(0) == 1 && Halved(width, 0) == width
    ensures steps > 0 ==> Halved(width, steps) == Halved(width / 2.0, steps - 1) && Cells(steps) == 2 * Cells(steps - 1)
  {
  }

  lemma UpperHalf(lo: real, mid: real, cell: real, i: nat, steps: nat) returns (j: nat)
    requires steps > 0 && mid - lo == cell * Pow2(steps - 1) && i < Cells(steps - 1)
    ensures j < Cells(steps) && mid + Notional(i as real, cell) == lo + Notional(j as real, cell)
  {
    j := i + Cells(steps - 1);
    assert j as real == i as real + Pow2(steps - 1);
  }

  /** Cells that fit in the tolerance at no fee: the tolerance as a fraction, in cells. */
  function ToleranceCells(tol: real): real {
    tol / 100.0 * Pow2(AMM_STEPS)
  }

  /** The limit is a whole number of cells: as many as the tolerance divided by the kept part allows. */
  lemma PoolLimitInCells(reserveIn: real, reserveOut: real, g: real, tol: real) returns (k: nat)
    requires reserveIn > 0.0 && reserveOut > 0.0 && g > 0.0 && tol >= 0.0
    ensures k < Cells(AMM_STEPS)
    ensures Notional(AmmMaxSize(reserveIn, reserveOut, 1.0 - g, tol), Pow2(AMM_STEPS)) == Notional(k as real, reserveIn)
    ensures k as real * g <= ToleranceCells(tol)
    ensures (k + 1) as real * g >= ToleranceCells(tol) || k + 1 == Cells(AMM_STEPS)
  {
    hide AmmMaxSize, AmmBisect, ImpactBudget, Pow2, Cells, Halved;
    var p, cell := Pow2(AMM_STEPS), Halved(reserveIn, AMM_STEPS);
    PoolLimitIsExact(reserveIn, reserveOut, 1.0 - g, tol);
    var r := AmmMaxSize(reserveIn, reserveOut, 1.0 - g, tol);
    k := LimitOnGrid(reserveIn, reserveOut, 1.0 - g, tol);
    assert r == Notional(k as real, cell) && cell * p == reserveIn;
    assert r * p == k as real * (cell * p) by {
      assert (k as real * cell) * p == k as real * (cell * p);
    }
    CellCount(reserveIn, g, tol, cell, p, k);
  }

  lemma LimitOnGrid(reserveIn: real, reserveOut: real, fee: real, tol: real) returns (k: nat)
    requires reserveIn > 0.0 && reserveOut > 0.0 && fee < 1.0
    ensures k < Cells(AMM_STEPS)
    ensures AmmMaxSize(reserveIn, reserveOut, fee, tol) == Notional(k as real, Halved(reserveIn, AMM_STEPS))
  {
    hide AmmBisect, Cells, Halved, Notional;
    k := BisectIsOnGrid(reserveIn, reserveOut, fee, tol, 0.0, reserveIn, AMM_STEPS);
    assert reserveIn - 0.0 == reserveIn;
  }

  lemma CellCount(reserveIn: real, g: real, tol: real, cell: real, p: real, k: nat)
    requires reserveIn > 0.0 && g > 0.0 && tol >= 0.0 && p == Pow2(AMM_STEPS) && cell * p == reserveIn
    requires k < Cells(AMM_STEPS)
    requires k as real * cell <= ImpactBudget(reserveIn, 1.0 - g, tol) <= k as real * cell + cell
    ensures k as real * g <= tol / 100.0 * p
    ensures (k + 1) as real * g >= tol / 100.0 * p || k + 1 == Cells(AMM_STEPS)
  {
    hide Pow2, Cells;
    SignKept(cell, p);
    var h := 100.0 * g;
    var w := reserveIn * tol / h;
    assert w * h == reserveIn * tol;
    SignKept(w, h);
    NonNegativeProduct(reserveIn, tol);
    assert k as real * cell <= w;
    CountBelow(k as real, cell, p, g, tol, w);
    if w <= k as real * cell + cell {
      CountAbove((k + 1) as real, cell, p, g, tol, w);
    } else {
      assert reserveIn <= k as real * cell + cell;
      assert (k as real + 1.0 - p) * cell == k as real * cell + cell - cell * p;
      SignKept(k as real + 1.0 - p, cell);
      assert p == Cells(AMM_STEPS) as real;
    }
  }

  lemma CountBelow(k: real, cell: real, p: real, g: real, tol: real, w: real)
    requires cell > 0.0 && g > 0.0 && p > 0.0 && k * cell <= w && w * (100.0 * g) == cell * p * tol
    ensures k * g <= tol / 100.0 * p
  {
    NonNegativeProduct(w - k * cell, 100.0 * g);
    assert (w - k * cell) * (100.0 * g) == (p * tol - 100.0 * (k * g)) * cell;
    SignKept(p * tol - 100.0 * (k * g), cell);
  }

  lemma CountAbove(k: real, cell: real, p: real, g: real, tol: real, w: real)
    requires cell > 0.0 && g > 0.0 && p > 0.0 && k * cell >= w && w * (100.0 * g) == cell * p * tol
    ensures k * g >= tol / 100.0 * p
  {
    NonNegativeProduct(k * cell - w, 100.0 * g);
    assert (k * cell - w) * (100.0 * g) == (100.0 * (k * g) - p * tol) * cell;
    SignKept(100.0 * (k * g) - p * tol, cell);
  }

  // ── the ceiling on the fill ratio ──

  /** The greatest part of the input a pool can leave and still allow a size: its fee must leave some, and
      where even one cell of the reserve may exceed the tolerance, it must take enough to make it fit. */
  function PoolShare(cfg: ScannerConfig): real {
    MinReal(1.0, ToleranceCells(cfg.maxSlippageDexPct))
  }

  /** The fewest cells a pool's limit can have, other than none. */
  function FewestCells(cfg: ScannerConfig): nat {
    var q := ToleranceCells(cfg.maxSlippageDexPct);
    if q < 1.0 then 1 else if q.Floor < Cells(AMM_STEPS) then q.Floor else Cells(AMM_STEPS) - 1
  }

  /** What the smallest swept size, a quarter of the limit, takes of the reserve at least. */
  function LeastImpact(cfg: ScannerConfig): real {
    FewestCells(cfg) as real / (4.0 * Pow2(AMM_STEPS))
  }

  function Damped(a: real, e: real): real {
    if 1.0 + e * a <= 0.0 then 0.0 else a / (1.0 + e * a)
  }

  /** Least upper bound of what a unit paid fetches, over books of every depth and pools of every reserve
      and fee: the ratio of the tops for two books; less the unavoidable for pools. */
  function BestRatio(cfg: ScannerConfig, buyType: VenueType, sellType: VenueType, tops: real): real {
    BestOf(tops, PoolShare(cfg), Damped(PoolShare(cfg), LeastImpact(cfg)), buyType, sellType)
  }

  function BestOf(tops: real, share: real, damped: real, buyType: VenueType, sellType: VenueType): real {
    if buyType == CEX && sellType == CEX then tops
    else if buyType == DEX && sellType == DEX then tops * share * damped
    else tops * share
  }

  /** It grows with the tops, from nothing, and stays below them. */
  lemma BestOfOrder(tops: real, other: real, share: real, damped: real, bt: VenueType, st: VenueType)
    requires 0.0 <= damped <= share <= 1.0
    ensures tops <= other ==> BestOf(tops, share, damped, bt, st) <= BestOf(other, share, damped, bt, st)
    ensures BestOf(0.0, share, damped, bt, st) == 0.0
    ensures tops > 0.0 ==> BestOf(tops, share, damped, bt, st) <= tops
  {
    var x, y := tops * share, other * share;
    if tops <= other {
      NonNegativeProduct(other - tops, share);
      assert (other - tops) * share == y - x;
      NonNegativeProduct(y - x, damped);
      assert (y - x) * damped == y * damped - x * damped;
    }
    if tops > 0.0 {
      NonNegativeProduct(tops, 1.0 - share);
      assert tops * (1.0 - share) == tops - x;
      NonNegativeProduct(tops, share);
      NonNegativeProduct(x, 1.0 - damped);
      assert x * (1.0 - damped) == x - x * damped;
    }
  }

  lemma DampedOrder(a: real, b: real, e: real)
    requires 0.0 <= a <= b && e >= 0.0
    ensures Damped(a, e) <= Damped(b, e) && 0.0 <= Damped(a, e) <= a
    ensures a < b ==> Damped(a, e) < Damped(b, e)
  {
    NonNegativeProduct(e, a);
    NonNegativeProduct(e, b);
    var x, y, c, d := Damped(a, e), Damped(b, e), 1.0 + e * a, 1.0 + e * b;
    assert x * c == a && y * d == b;
    assert (y - x) * (c * d) == b - a by {
      assert (y - x) * (c * d) == (y * d) * c - (x * c) * d;
    }
    assert c * d > 0.0;
    SignKept(y - x, c * d);
    SignKept(x, c);
    NonNegativeProduct(x, e * a);
    assert x * c == x + x * (e * a);
  }

  /** A pool that allows any size keeps no more than the pool share, and its limit has at least the fewest cells. */
  lemma UsableBuyPool(cfg: ScannerConfig, leg: Leg) returns (k: nat)
    requires leg.Sound() && leg.DexPoolLeg? && leg.side == Buy && cfg.InRange()
    requires leg.MaxSizeUsd(cfg.maxSlippageDexPct) > 0.0
    ensures k >= FewestCells(cfg) && Kept(leg) <= PoolShare(cfg)
    ensures Notional(leg.MaxSizeUsd(cfg.maxSlippageDexPct), Pow2(AMM_STEPS)) == Notional(k as real, leg.ReserveQuote())
  {
    hide AmmMaxSize, Cells, Pow2, ToleranceCells, Leg.MaxSizeUsd, Leg.BestPrice, Notional, FewestCells, PoolShare, Kept;
    BestIsPositive(leg);
    KeptIsFraction(leg);
    PoolLimitOf(leg, cfg.maxSlippageDexPct);
    k := PoolLimitInCells(leg.ReserveQuote(), leg.ReserveBase(), Kept(leg), cfg.maxSlippageDexPct);
    LimitIsPositive(leg.MaxSizeUsd(cfg.maxSlippageDexPct), Pow2(AMM_STEPS), k as real, leg.ReserveQuote());
    CellsAndShare(cfg, k, Kept(leg));
  }

  lemma UsableSellPool(cfg: ScannerConfig, leg: Leg) returns (k: nat)
    requires leg.Sound() && leg.DexPoolLeg? && leg.side == Sell && cfg.InRange()
    requires leg.MaxSizeUsd(cfg.maxSlippageDexPct) > 0.0
    ensures leg.BestPrice().Some?
    ensures k >= FewestCells(cfg) && Kept(leg) <= PoolShare(cfg)
    ensures Notional(leg.MaxSizeUsd(cfg.maxSlippageDexPct), Pow2(AMM_STEPS))
            == Notional(k as real, Notional(leg.ReserveBase(), leg.BestPrice().value))
  {
    hide AmmMaxSize, Cells, Pow2, ToleranceCells, Leg.MaxSizeUsd, Leg.BestPrice, Notional, FewestCells, PoolShare, Kept;
    BestIsPositive(leg);
    KeptIsFraction(leg);
    PoolLimitOf(leg, cfg.maxSlippageDexPct);
    k := PoolLimitInCells(leg.ReserveBase(), leg.ReserveQuote(), Kept(leg), cfg.maxSlippageDexPct);
    PricedCells(AmmMaxSize(leg.ReserveBase(), leg.ReserveQuote(), leg.FeeRate(), cfg.maxSlippageDexPct),
                leg.BestPrice().value, Pow2(AMM_STEPS), k as real, leg.ReserveBase());
    CellsAndShare(cfg, k, Kept(leg));
  }

  lemma PoolLimitOf(leg: Leg, tol: real)
    requires leg.Sound() && leg.DexPoolLeg? && leg.BestPrice().Some? && leg.BestPrice().value > 0.0
    ensures 1.0 - Kept(leg) == leg.FeeRate()
    ensures leg.MaxSizeUsd(tol)
      == if leg.side == Buy then AmmMaxSize(leg.ReserveQuote(), leg.ReserveBase(), leg.FeeRate(), tol)
         else Notional(AmmMaxSize(leg.ReserveBase(), leg.ReserveQuote(), leg.FeeRate(), tol), leg.BestPrice().value)
  {
    hide AmmMaxSize, Notional;
  }

  lemma PricedCells(r: real, best: real, p: real, k: real, reserve: real)
    requires best > 0.0 && p > 0.0 && reserve > 0.0 && Notional(r, p) == Notional(k, reserve)
    requires Notional(r, best) > 0.0
    ensures k > 0.0 && Notional(Notional(r, best), p) == Notional(k, Notional(reserve, best))
  {
    SignKept(r, best);
    LimitIsPositive(r, p, k, reserve);
    assert (r * best) * p == (r * p) * best;
    assert (k * reserve) * best == k * (reserve * best);
  }

  lemma LimitIsPositive(r: real, p: real, k: real, reserve: real)
    requires r > 0.0 && p > 0.0 && reserve > 0.0 && Notional(r, p) == Notional(k, reserve)
    ensures k > 0.0
  {
    SignKept(r, p);
    SignKept(k, reserve);
  }

  lemma CellsAndShare(cfg: ScannerConfig, k: nat, g: real)
    requires k >= 1 && 0.0 < g < 1.0
    requires k as real * g <= ToleranceCells(cfg.maxSlippageDexPct)
    requires (k + 1) as real * g >= ToleranceCells(cfg.maxSlippageDexPct) || k + 1 == Cells(AMM_STEPS)
    ensures k >= FewestCells(cfg) && g <= PoolShare(cfg)
  {
    hide ToleranceCells, Cells;
    var q := ToleranceCells(cfg.maxSlippageDexPct);
    AtLeastOnce(k as real, g);
    if (k + 1) as real * g >= q {
      MoreThanPart((k + 1) as real, g, q);
    }
  }

  lemma AtLeastOnce(k: real, g: real)
    requires k >= 1.0 && g >= 0.0
    ensures g <= k * g
  {
    NonNegativeProduct(k - 1.0, g);
  }

  lemma MoreThanPart(n: real, g: real, q: real)
    requires n > 0.0 && g < 1.0 && n * g >= q
    ensures n > q
  {
    SignKept(1.0 - g, n);
    assert (1.0 - g) * n == n - n * g;
  }

  // Scalars: b, s are the tops; x, y the fills; g, h what the fees keep on the buy and the sell side.

  lemma RatioBelowTops(b: real, s: real, x: real, y: real, g: real, h: real)
    requires b > 0.0 && s > 0.0 && x > 0.0 && y > 0.0 && g > 0.0 && h > 0.0
    requires x * g >= b && y <= s * h
    ensures y / x <= s / b * (g * h)
    ensures x * g > b || y < s * h ==> y / x < s / b * (g * h)
  {
    var r, t := y / x, s / b;
    assert r * x == y && t * b == s;
    SignKept(t, b);
    assert s * h == t * h * b by { assert (t * b) * h == t * h * b; }
    RatioGap(r, t, x, g, h, b, y);
  }

  lemma RatioGap(r: real, t: real, x: real, g: real, h: real, b: real, y: real)
    requires t > 0.0 && x > 0.0 && h > 0.0 && x * g >= b && y <= t * h * b && r * x == y
    ensures r <= t * (g * h)
    ensures x * g > b || y < t * h * b ==> r < t * (g * h)
  {
    var gap, m := t * (g * h) - r, t * h;
    assert m > 0.0;
    var over := x * g - b;
    SignKept(over, m);
    var sum := over * m + (m * b - y);
    assert sum >= 0.0;
    assert over > 0.0 || y < m * b ==> sum > 0.0;
    assert gap * x == sum;
    SignKept(gap, x);
  }

  function TypeOf(leg: Leg): VenueType {
    if leg.DexPoolLeg? then DEX else CEX
  }

  lemma FillFactors(size: real, buyLeg: Leg, sellLeg: Leg)
    requires SoundTrade(buyLeg, sellLeg) && FillsAt(size, buyLeg, sellLeg).Some?
    ensures buyLeg.BestPrice().Some? && sellLeg.BestPrice().Some? && size > 0.0
    ensures var f, b, s := FillsAt(size, buyLeg, sellLeg).value, buyLeg.BestPrice().value, sellLeg.BestPrice().value;
      && b > 0.0 && s > 0.0 && f.buyFill > 0.0 && f.sellFill > 0.0 && f.baseSize > 0.0
      && Notional(f.baseSize, f.buyFill) == size
      && f.buyFill * Kept(buyLeg) >= b && f.sellFill <= s * Kept(sellLeg)
      && (buyLeg.DexPoolLeg? ==>
            f.buyFill * Kept(buyLeg) * buyLeg.ReserveQuote() == b * (buyLeg.ReserveQuote() + size * Kept(buyLeg)))
      && (sellLeg.DexPoolLeg? ==>
            f.sellFill * (sellLeg.ReserveBase() + f.baseSize * Kept(sellLeg))
            == s * Kept(sellLeg) * sellLeg.ReserveBase())
  {
    hide Leg.FillPrice, Leg.BestPrice, Kept, Leg.Sound;
    FillsAreHonest(size, buyLeg, sellLeg);
    var f := FillsAt(size, buyLeg, sellLeg).value;
    BuyFillFactor(buyLeg, size);
    SellFillFactor(sellLeg, f.baseSize);
  }

  /** No trade at a swept size, a quarter of the saturation or more, fetches more per unit than the best ratio;
      and where a pool takes part and the trade gains at all, always less. */
  lemma RatioCeiling(cfg: ScannerConfig, buyLeg: Leg, sellLeg: Leg, size: real)
    requires SoundTrade(buyLeg, sellLeg) && cfg.InRange() && FillsAt(size, buyLeg, sellLeg).Some?
    requires 0.0 < Saturation(cfg, buyLeg, sellLeg, TypeOf(buyLeg), TypeOf(sellLeg)) <= 4.0 * size
    ensures buyLeg.BestPrice().Some? && sellLeg.BestPrice().Some? && buyLeg.BestPrice().value > 0.0
    ensures var f, tops := FillsAt(size, buyLeg, sellLeg).value, sellLeg.BestPrice().value / buyLeg.BestPrice().value;
      var best := BestRatio(cfg, TypeOf(buyLeg), TypeOf(sellLeg), tops);
      && f.buyFill > 0.0
      && (buyLeg.CexBookLeg? && sellLeg.CexBookLeg? ==> f.sellFill / f.buyFill <= best)
      && (buyLeg.DexPoolLeg? || sellLeg.DexPoolLeg? ==> f.sellFill / f.buyFill > 1.0 ==> f.sellFill / f.buyFill < best)
  {
    hide FillsAt, Leg.BestPrice, Leg.FillPrice, Leg.MaxSizeUsd, Damped, PoolShare, LeastImpact, FewestCells;
    FillFactors(size, buyLeg, sellLeg);
    KeptIsFraction(buyLeg);
    KeptIsFraction(sellLeg);
    if buyLeg.DexPoolLeg? && sellLeg.DexPoolLeg? {
      PoolsCeiling(cfg, buyLeg, sellLeg, size);
    } else if buyLeg.DexPoolLeg? {
      BoughtFromPool(cfg, buyLeg, sellLeg, size);
    } else if sellLeg.DexPoolLeg? {
      SoldToPool(cfg, buyLeg, sellLeg, size);
    } else {
      var f := FillsAt(size, buyLeg, sellLeg).value;
      RatioBelowTops(buyLeg.BestPrice().value, sellLeg.BestPrice().value, f.buyFill, f.sellFill, 1.0, 1.0);
    }
  }

  lemma BoughtFromPool(cfg: ScannerConfig, buyLeg: Leg, sellLeg: Leg, size: real)
    requires SoundTrade(buyLeg, sellLeg) && cfg.InRange() && FillsAt(size, buyLeg, sellLeg).Some?
    requires buyLeg.DexPoolLeg? && sellLeg.CexBookLeg? && buyLeg.MaxSizeUsd(cfg.maxSlippageDexPct) > 0.0
    ensures buyLeg.BestPrice().Some? && sellLeg.BestPrice().Some? && buyLeg.BestPrice().value > 0.0
    ensures var f := FillsAt(size, buyLeg, sellLeg).value;
      f.buyFill > 0.0
      && f.sellFill / f.buyFill < sellLeg.BestPrice().value / buyLeg.BestPrice().value * PoolShare(cfg)
  {
    hide FillsAt, Leg.BestPrice, Leg.FillPrice, Leg.MaxSizeUsd, PoolShare, FewestCells, Pow2, Leg.Sound;
    FillFactors(size, buyLeg, sellLeg);
    KeptIsFraction(buyLeg);
    var k := UsableBuyPool(cfg, buyLeg);
    var f, b, s := FillsAt(size, buyLeg, sellLeg).value, buyLeg.BestPrice().value, sellLeg.BestPrice().value;
    var g := Kept(buyLeg);
    PoolReserves(buyLeg);
    ImpactIsStrict(f.buyFill * g, b, buyLeg.ReserveQuote(), size * g);
    RatioBelowTops(b, s, f.buyFill, f.sellFill, g, 1.0);
    SharesOrder(s / b, g * 1.0, PoolShare(cfg), b, s);
  }

  lemma SoldToPool(cfg: ScannerConfig, buyLeg: Leg, sellLeg: Leg, size: real)
    requires SoundTrade(buyLeg, sellLeg) && cfg.InRange() && FillsAt(size, buyLeg, sellLeg).Some?
    requires buyLeg.CexBookLeg? && sellLeg.DexPoolLeg? && sellLeg.MaxSizeUsd(cfg.maxSlippageDexPct) > 0.0
    ensures buyLeg.BestPrice().Some? && sellLeg.BestPrice().Some? && buyLeg.BestPrice().value > 0.0
    ensures var f := FillsAt(size, buyLeg, sellLeg).value;
      f.buyFill > 0.0
      && f.sellFill / f.buyFill < sellLeg.BestPrice().value / buyLeg.BestPrice().value * PoolShare(cfg)
  {
    hide FillsAt, Leg.BestPrice, Leg.FillPrice, Leg.MaxSizeUsd, PoolShare, FewestCells, Pow2, Leg.Sound;
    FillFactors(size, buyLeg, sellLeg);
    KeptIsFraction(sellLeg);
    var k := UsableSellPool(cfg, sellLeg);
    var f, b, s := FillsAt(size, buyLeg, sellLeg).value, buyLeg.BestPrice().value, sellLeg.BestPrice().value;
    var h := Kept(sellLeg);
    PoolReserves(sellLeg);
    SaleIsStrict(f.sellFill, s * h, sellLeg.ReserveBase(), f.baseSize * h);
    RatioBelowTops(b, s, f.buyFill, f.sellFill, 1.0, h);
    SharesOrder(s / b, 1.0 * h, PoolShare(cfg), b, s);
  }

  lemma PoolReserves(leg: Leg)
    requires leg.Sound() && leg.DexPoolLeg?
    ensures leg.ReserveBase() > 0.0 && leg.ReserveQuote() > 0.0
  {
  }

  lemma ImpactIsStrict(paid: real, best: real, reserve: real, n: real)
    requires best > 0.0 && reserve > 0.0 && n > 0.0 && paid * reserve == best * (reserve + n)
    ensures paid > best
  {
    assert (paid - best) * reserve == best * n;
    SignKept(n, best);
    SignKept(paid - best, reserve);
  }

  lemma SaleIsStrict(fill: real, ceiling: real, reserve: real, n: real)
    requires fill > 0.0 && reserve > 0.0 && n > 0.0 && fill * (reserve + n) == ceiling * reserve
    ensures fill < ceiling
  {
    assert (ceiling - fill) * reserve == fill * n;
    SignKept(n, fill);
    SignKept(ceiling - fill, reserve);
  }

  lemma SharesOrder(tops: real, kept: real, share: real, b: real, s: real)
    requires b > 0.0 && s > 0.0 && tops == s / b && kept <= share
    ensures tops > 0.0 && tops * kept <= tops * share
  {
    SignKept(tops, b);
    NonNegativeProduct(tops, share - kept);
  }

  lemma PoolsCeiling(cfg: ScannerConfig, buyLeg: Leg, sellLeg: Leg, size: real)
    requires SoundTrade(buyLeg, sellLeg) && cfg.InRange() && FillsAt(size, buyLeg, sellLeg).Some?
    requires buyLeg.DexPoolLeg? && sellLeg.DexPoolLeg?
    requires 0.0 < Saturation(cfg, buyLeg, sellLeg, DEX, DEX) <= 4.0 * size
    ensures buyLeg.BestPrice().Some? && sellLeg.BestPrice().Some? && buyLeg.BestPrice().value > 0.0
    ensures var f := FillsAt(size, buyLeg, sellLeg).value;
      && f.buyFill > 0.0
      && (f.sellFill / f.buyFill > 1.0 ==>
            f.sellFill / f.buyFill < sellLeg.BestPrice().value / buyLeg.BestPrice().value * PoolShare(cfg)
                                     * Damped(PoolShare(cfg), LeastImpact(cfg)))
  {
    hide FillsAt, Leg.BestPrice, Leg.FillPrice, Leg.MaxSizeUsd, PoolShare, LeastImpact, Leg.Sound, Damped, Notional;
    if buyLeg.MaxSizeUsd(cfg.maxSlippageDexPct) <= sellLeg.MaxSizeUsd(cfg.maxSlippageDexPct) {
      BoundByBuyPool(cfg, buyLeg, sellLeg, size);
    } else {
      BoundBySellPool(cfg, buyLeg, sellLeg, size);
    }
  }

  lemma BoundByBuyPool(cfg: ScannerConfig, buyLeg: Leg, sellLeg: Leg, size: real)
    requires SoundTrade(buyLeg, sellLeg) && cfg.InRange() && FillsAt(size, buyLeg, sellLeg).Some?
    requires buyLeg.DexPoolLeg? && sellLeg.DexPoolLeg?
    requires 0.0 < buyLeg.MaxSizeUsd(cfg.maxSlippageDexPct) <= 4.0 * size
    requires sellLeg.MaxSizeUsd(cfg.maxSlippageDexPct) > 0.0
    ensures buyLeg.BestPrice().Some? && sellLeg.BestPrice().Some? && buyLeg.BestPrice().value > 0.0
    ensures var f := FillsAt(size, buyLeg, sellLeg).value;
      f.buyFill > 0.0 && f.sellFill / f.buyFill < sellLeg.BestPrice().value / buyLeg.BestPrice().value * PoolShare(cfg)
                                                  * Damped(PoolShare(cfg), LeastImpact(cfg))
  {
    hide FillsAt, Leg.BestPrice, Leg.FillPrice, Leg.MaxSizeUsd, PoolShare, FewestCells, Pow2, Leg.Sound, Damped;
    hide Notional, LeastImpact, ToleranceCells, Kept;
    FillFactors(size, buyLeg, sellLeg);
    KeptIsFraction(buyLeg);
    KeptIsFraction(sellLeg);
    PoolReserves(buyLeg);
    PoolReserves(sellLeg);
    var k := UsableBuyPool(cfg, buyLeg);
    var other := UsableSellPool(cfg, sellLeg);
    var f, b, s := FillsAt(size, buyLeg, sellLeg).value, buyLeg.BestPrice().value, sellLeg.BestPrice().value;
    ImpactScale(cfg, k);
    QuarterOfLimit(size, buyLeg.MaxSizeUsd(cfg.maxSlippageDexPct), Pow2(AMM_STEPS), k as real, buyLeg.ReserveQuote(),
                   LeastImpact(cfg));
    BuyBoundRatio(b, s, f.buyFill, f.sellFill, Kept(buyLeg), Kept(sellLeg), PoolShare(cfg), LeastImpact(cfg), size,
                  buyLeg.ReserveQuote(), sellLeg.ReserveBase(), f.baseSize);
  }

  lemma SellPoolImpact(cfg: ScannerConfig, leg: Leg, size: real)
    requires leg.Sound() && leg.DexPoolLeg? && leg.side == Sell && cfg.InRange()
    requires 0.0 < leg.MaxSizeUsd(cfg.maxSlippageDexPct) <= 4.0 * size
    ensures leg.BestPrice().Some? && Kept(leg) <= PoolShare(cfg) && LeastImpact(cfg) >= 0.0
    ensures size >= LeastImpact(cfg) * Notional(leg.ReserveBase(), leg.BestPrice().value)
  {
    hide Leg.BestPrice, Leg.MaxSizeUsd, PoolShare, FewestCells, Pow2, Leg.Sound, Notional, LeastImpact;
    var k := UsableSellPool(cfg, leg);
    PoolReserves(leg);
    BestIsPositive(leg);
    PositiveNotional(leg.ReserveBase(), leg.BestPrice().value);
    ImpactScale(cfg, k);
    QuarterOfLimit(size, leg.MaxSizeUsd(cfg.maxSlippageDexPct), Pow2(AMM_STEPS), k as real,
                   Notional(leg.ReserveBase(), leg.BestPrice().value), LeastImpact(cfg));
  }

  lemma BoundBySellPool(cfg: ScannerConfig, buyLeg: Leg, sellLeg: Leg, size: real)
    requires SoundTrade(buyLeg, sellLeg) && cfg.InRange() && FillsAt(size, buyLeg, sellLeg).Some?
    requires buyLeg.DexPoolLeg? && sellLeg.DexPoolLeg?
    requires 0.0 < sellLeg.MaxSizeUsd(cfg.maxSlippageDexPct) <= 4.0 * size
    requires buyLeg.MaxSizeUsd(cfg.maxSlippageDexPct) > 0.0
    ensures buyLeg.BestPrice().Some? && sellLeg.BestPrice().Some? && buyLeg.BestPrice().value > 0.0
    ensures var f := FillsAt(size, buyLeg, sellLeg).value;
      && f.buyFill > 0.0
      && (f.sellFill / f.buyFill > 1.0 ==>
            f.sellFill / f.buyFill < sellLeg.BestPrice().value / buyLeg.BestPrice().value * PoolShare(cfg)
                                     * Damped(PoolShare(cfg), LeastImpact(cfg)))
  {
    hide FillsAt, Leg.BestPrice, Leg.FillPrice, Leg.MaxSizeUsd, PoolShare, FewestCells, Pow2, Leg.Sound, Damped;
    hide Notional, LeastImpact, ToleranceCells, Kept;
    FillFactors(size, buyLeg, sellLeg);
    KeptIsFraction(buyLeg);
    KeptIsFraction(sellLeg);
    PoolReserves(buyLeg);
    PoolReserves(sellLeg);
    ShareIsFraction(cfg);
    var other := UsableBuyPool(cfg, buyLeg);
    SellPoolImpact(cfg, sellLeg, size);
    var f, b, s := FillsAt(size, buyLeg, sellLeg).value, buyLeg.BestPrice().value, sellLeg.BestPrice().value;
    SellBoundRatio(b, s, f.buyFill, f.sellFill, Kept(buyLeg), Kept(sellLeg), PoolShare(cfg), LeastImpact(cfg), size,
                   buyLeg.ReserveQuote(), sellLeg.ReserveBase(), f.baseSize);
  }

  lemma ShareIsFraction(cfg: ScannerConfig)
    ensures PoolShare(cfg) <= 1.0
  {
    hide ToleranceCells;
  }

  lemma ImpactScale(cfg: ScannerConfig, k: nat)
    requires k >= FewestCells(cfg)
    ensures 0.0 <= LeastImpact(cfg) && LeastImpact(cfg) * (4.0 * Pow2(AMM_STEPS)) <= k as real
  {
    hide FewestCells, Pow2;
    SignKept(LeastImpact(cfg), 4.0 * Pow2(AMM_STEPS));
  }

  lemma QuarterOfLimit(size: real, limit: real, p: real, k: real, reserve: real, e: real)
    requires p > 0.0 && reserve > 0.0 && Notional(limit, p) == Notional(k, reserve)
    requires limit <= 4.0 * size && e * (4.0 * p) <= k
    ensures size >= e * reserve
  {
    NonNegativeProduct(4.0 * size - limit, p);
    NonNegativeProduct(k - e * (4.0 * p), reserve);
    assert (size - e * reserve) * (4.0 * p) == (4.0 * size - limit) * p + (k - e * (4.0 * p)) * reserve;
    SignKept(size - e * reserve, 4.0 * p);
  }

  /** The buy pool sets the limit: its impact is at least e of what it keeps. */
  lemma BuyBoundRatio(b: real, s: real, x: real, y: real, g: real, h: real, u: real, e: real, size: real, rq: real,
                      rb: real, base: real)
    requires b > 0.0 && s > 0.0 && x > 0.0 && y > 0.0 && 0.0 < g <= u && 0.0 < h <= u && e >= 0.0
    requires rq > 0.0 && rb > 0.0 && base > 0.0 && size >= e * rq
    requires x * g * rq == b * (rq + size * g)
    requires y * (rb + base * h) == s * h * rb
    ensures y / x < s / b * u * Damped(u, e)
  {
    SaleIsStrict(y, s * h, rb, base * h);
    BuyAgainstImpact(b, x, g, e, size, rq);
    DampedOrder(g, u, e);
    var d := Damped(g, e);
    assert d > 0.0 && x * d >= b by { PaidOverDamped(b, x, g, e); }
    RatioBelowTops(b, s, x, y, d, h);
    SignKept(s / b, b);
    var t := s / b;
    assert t * (d * h) <= t * u * Damped(u, e) by { ProductOrder(t, d, h, Damped(u, e), u); }
  }

  lemma ProductOrder(t: real, d: real, h: real, dd: real, u: real)
    requires t >= 0.0 && 0.0 <= d <= dd && 0.0 <= h <= u
    ensures t * (d * h) <= t * u * dd
  {
    NonNegativeProduct(dd - d, h);
    NonNegativeProduct(dd, u - h);
    NonNegativeProduct(t, dd * u - d * h);
  }

  lemma BuyAgainstImpact(b: real, x: real, g: real, e: real, size: real, rq: real)
    requires b > 0.0 && g > 0.0 && rq > 0.0 && size >= e * rq && x * g * rq == b * (rq + size * g)
    ensures x * g >= b * (1.0 + e * g)
  {
    NonNegativeProduct(size - e * rq, b * g);
    assert (x * g - b * (1.0 + e * g)) * rq == (size - e * rq) * (b * g);
    SignKept(x * g - b * (1.0 + e * g), rq);
  }

  lemma PaidOverDamped(b: real, x: real, g: real, e: real)
    requires b > 0.0 && x > 0.0 && g > 0.0 && e >= 0.0 && x * g >= b * (1.0 + e * g)
    ensures Damped(g, e) > 0.0 && x * Damped(g, e) >= b
  {
    NonNegativeProduct(e, g);
    var d, c := Damped(g, e), 1.0 + e * g;
    assert d * c == g;
    SignKept(d, c);
    assert (x * d - b) * c == x * g - b * c;
    SignKept(x * d - b, c);
  }

  /** The sell pool sets the limit: its impact is at least e of what reaches it. */
  lemma SellBoundRatio(b: real, s: real, x: real, y: real, g: real, h: real, u: real, e: real, size: real, rq: real,
                       rb: real, base: real)
    requires b > 0.0 && s > 0.0 && x > 0.0 && y > 0.0 && 0.0 < g <= u <= 1.0 && 0.0 < h <= u && e >= 0.0
    requires rq > 0.0 && rb > 0.0 && base > 0.0 && size > 0.0 && size >= e * Notional(rb, s)
    requires Notional(base, x) == size
    requires x * g * rq == b * (rq + size * g)
    requires y * (rb + base * h) == s * h * rb
    ensures y / x > 1.0 ==> y / x < s / b * u * Damped(u, e)
  {
    var r, p := y / x, s * h / x;
    ImpactIsStrict(x * g, b, rq, size * g);
    var t := s / b;
    RatioBelowTops(b, s, x, s * h, g, h);
    SignKept(t, b);
    SoldDamped(s, h, x, y, e, rb, base, p, r, size);
    ProductOrder(t, g, h, u, u);
    assert t * (g * h) <= t * u * u;
    assert p < t * u * u;
    if r > 1.0 {
      DampedChain(r, p, t, u, e);
    }
  }

  lemma DampedChain(r: real, p: real, t: real, u: real, e: real)
    requires r > 1.0 && p > 0.0 && t > 0.0 && 0.0 < u <= 1.0 && e >= 0.0
    requires r * (1.0 + e * p) <= p < t * u * u
    ensures r < t * u * Damped(u, e)
  {
    hide Damped;
    var top := t * (u * u);
    assert top == t * u * u;
    BelowDamped(r, p, e);
    DampedOrder(p, top, e);
    DampedTops(t, u, e);
  }

  lemma SoldDamped(s: real, h: real, x: real, y: real, e: real, rb: real, base: real, p: real, r: real, size: real)
    requires s > 0.0 && h > 0.0 && x > 0.0 && y > 0.0 && e >= 0.0 && rb > 0.0 && base > 0.0
    requires base * x == size && size >= e * (rb * s) && p == s * h / x && r == y / x
    requires y * (rb + base * h) == s * h * rb
    ensures p > 0.0 && r * (1.0 + e * p) <= p
  {
    assert p * x == s * h && r * x == y;
    SignKept(p, x);
    SignKept(r, x);
    assert s * h > 0.0;
    assert r * (rb + base * h) == p * rb by {
      assert (r * (rb + base * h) - p * rb) * x == y * (rb + base * h) - s * h * rb;
      ZeroProduct(r * (rb + base * h) - p * rb, x);
    }
    assert base * h >= e * p * rb by {
      NonNegativeProduct(size - e * (rb * s), h);
      assert (base * h - e * p * rb) * x == (size - e * (rb * s)) * h;
      SignKept(base * h - e * p * rb, x);
    }
    NonNegativeProduct(base * h - e * p * rb, r);
    assert (p - r * (1.0 + e * p)) * rb == (base * h - e * p * rb) * r;
    SignKept(p - r * (1.0 + e * p), rb);
  }

  lemma BelowDamped(r: real, p: real, e: real)
    requires p > 0.0 && e >= 0.0 && r > 0.0 && r * (1.0 + e * p) <= p
    ensures r <= Damped(p, e) && (r > 1.0 ==> p > 1.0)
  {
    NonNegativeProduct(e, p);
    var c := 1.0 + e * p;
    NonNegativeProduct(r, e * p);
    assert r * c == r + r * (e * p);
    assert (Damped(p, e) - r) * c == p - r * c;
    SignKept(Damped(p, e) - r, c);
  }

  lemma DampedTops(t: real, u: real, e: real)
    requires t > 0.0 && 0.0 < u <= 1.0 && e >= 0.0 && t * (u * u) > 1.0
    ensures Damped(t * (u * u), e) <= t * u * Damped(u, e)
  {
    var top := t * (u * u);
    NonNegativeProduct(e, u);
    NonNegativeProduct(e, top);
    NonNegativeProduct(e, top - u);
    assert e * (top - u) == e * top - e * u;
    var c, d := 1.0 + e * top, 1.0 + e * u;
    var x, y := Damped(top, e), Damped(u, e);
    assert x * c == top && y * d == u;
    SignKept(x, c);
    NonNegativeProduct(x, c - d);
    assert (t * u * y - x) * d == x * (c - d) by {
      assert t * u * (y * d) == top;
    }
    SignKept(t * u * y - x, d);
  }
}
