/** From a candidate to a verdict (src/scanner/assembler.py), and the proof that its cheap pre-gate
    discards no candidate that its books' tops do not exceed. */
module Assembler {
  import opened Prelude
  import opened Market
  import opened Config
  import opened Mathx
  import opened LiquidityLeg
  import opened ProfitEngine
  import opened Signals
  import opened Validator

  /** What the assembler reads from collaborators that are not modelled: network quotes for fees, and
      the scores and statuses the later gates look at. */
  datatype Environment = Environment(
    takerRates: map<string, real>,
    withdrawalQuote: Option<real>,
    gasQuote: Option<real>,
    liquidityUsd: real,
    liquidityScore: real,
    confidence: real,
    buyStatus: ExchangeStatus,
    sellStatus: ExchangeStatus,
    stalenessSec: real,
    allowedStalenessSec: real,
    warmedUp: bool)
  {
    /** Rates are fractions of at most five percent and quotes are not negative. */
    predicate InRange() {
      && (forall v :: v in takerRates ==> 0.0 <= takerRates[v] <= 0.05)
      && OrZero(withdrawalQuote) >= 0.0 && OrZero(gasQuote) >= 0.0
    }
  }

  datatype Assembly = Published(breakdown: ProfitBreakdown, sizing: SizingProfile) | Rejected(reason: RejectReason)

  /** Fee charged on top of a leg's fill: none on a pool; unknown for an unknown venue. */
  function FlatFeeRate(env: Environment, leg: LegRef): Option<real> {
    if leg.venueType == DEX then Some(0.0)
    else if leg.venue in env.takerRates then Some(env.takerRates[leg.venue])
    else None
  }

  function ConversionBps(cfg: ScannerConfig, cand: Candidate): real {
    if cand.quote == "cross" then cfg.stablecoinCrossquoteBps else 0.0
  }

  /** Least percentage cost of the candidate at any size; None skips the pre-gate. */
  function FeeFloorPct(cfg: ScannerConfig, env: Environment, cand: Candidate): Option<real> {
    var buy, sell := FlatFeeRate(env, cand.buyLeg), FlatFeeRate(env, cand.sellLeg);
    if buy.None? || sell.None? then None
    else Some((buy.value + sell.value) * 100.0 + ConversionBps(cfg, cand) / 100.0)
  }

  function PreGate(cfg: ScannerConfig, env: Environment, cand: Candidate): Option<RejectReason> {
    var floor := FeeFloorPct(cfg, env, cand);
    if floor.None? then None
    else if cand.grossSpreadPct <= floor.value then Some(UNPROFITABLE_AFTER_FEES)
    else if cand.grossSpreadPct - floor.value < cfg.minRoiPct then Some(BELOW_MIN_PROFIT)
    else None
  }

  function ResolveFees(cfg: ScannerConfig, env: Environment, cand: Candidate): FeeInputs {
    var requiresWithdrawal := cand.arbType == CEX_CEX || cand.arbType == CEX_DEX;
    var requiresGas := cand.buyLeg.venueType == DEX || cand.sellLeg.venueType == DEX;
    var requiresBridge := cand.arbType == CROSS_CHAIN;
    FeeInputs(
      FlatFeeRate(env, cand.buyLeg), FlatFeeRate(env, cand.sellLeg),
      if requiresWithdrawal then env.withdrawalQuote else Some(0.0),
      if requiresGas then env.gasQuote else Some(0.0),
      if requiresBridge then cand.bridgeFeeUsd else None,
      ConversionBps(cfg, cand),
      requiresWithdrawal, requiresGas, requiresBridge)
  }

  function LegOf(book: OrderBook, venueType: VenueType, side: Side): Leg {
    if venueType == DEX then DexPoolLeg(book, side) else CexBookLeg(book, side)
  }

  function ContextFor(env: Environment, cand: Candidate, bd: ProfitBreakdown,
                      sizing: SizingProfile): ValidationContext {
    ValidationContext(
      bd, sizing, env.liquidityUsd, env.liquidityScore, env.confidence, env.buyStatus, env.sellStatus,
      env.stalenessSec, env.allowedStalenessSec,
      if cand.buyLeg.venueType == DEX || cand.sellLeg.venueType == DEX then DEX else CEX,
      true, env.warmedUp, bd.gasFeesUsd, bd.grossProfitUsd, cand.bridgeTimeSec,
      cand.arbType == CROSS_CHAIN, if cand.arbType == CROSS_CHAIN then cand.bridgeName.Some? else true)
  }

  /** The two legs the candidate trades on, from whatever books the cache returns. */
  function BuyLegOf(cand: Candidate, book: OrderBook): Leg {
    LegOf(book, cand.buyLeg.venueType, Buy)
  }

  function SellLegOf(cand: Candidate, book: OrderBook): Leg {
    LegOf(book, cand.sellLeg.venueType, Sell)
  }

  predicate BooksUsable(cand: Candidate, buyBook: Option<OrderBook>, sellBook: Option<OrderBook>) {
    && (buyBook.Some? ==> BuyLegOf(cand, buyBook.value).Usable())
    && (sellBook.Some? ==> SellLegOf(cand, sellBook.value).Usable())
  }

  /** The pipeline behind the pre-gate. */
  function FullPipeline(cfg: ScannerConfig, env: Environment, cand: Candidate,
                        buyBook: Option<OrderBook>, sellBook: Option<OrderBook>): Assembly
    requires BooksUsable(cand, buyBook, sellBook)
  {
    if buyBook.None? || sellBook.None? then Rejected(STALE_DATA)
    else
      var result := Optimize(cfg, BuyLegOf(cand, buyBook.value), SellLegOf(cand, sellBook.value),
                             ResolveFees(cfg, env, cand), cand.buyLeg.venueType, cand.sellLeg.venueType);
      if result.None? then Rejected(NO_VIABLE_SIZE)
      else
        var (bd, sizing) := result.value;
        var verdict := Validate(cfg, ContextFor(env, cand, bd, sizing));
        if verdict.Some? then Rejected(verdict.value) else Published(bd, sizing)
  }

  function AssembleSpot(cfg: ScannerConfig, env: Environment, cand: Candidate,
                        buyBook: Option<OrderBook>, sellBook: Option<OrderBook>): Assembly
    requires BooksUsable(cand, buyBook, sellBook)
  {
    var pregate := PreGate(cfg, env, cand);
    if pregate.Some? then Rejected(pregate.value) else FullPipeline(cfg, env, cand, buyBook, sellBook)
  }

  /** The books are as venues publish them, and their tops show no more spread than the candidate
      claims. The candidate's spread comes from the quotes, so this is a real condition. */
  ghost predicate SpreadCovers(cand: Candidate, buyBook: OrderBook, sellBook: OrderBook) {
    var buyLeg, sellLeg := BuyLegOf(cand, buyBook), SellLegOf(cand, sellBook);
    && SoundTrade(buyLeg, sellLeg)
    && buyLeg.BestPrice().Some? && sellLeg.BestPrice().Some?
    && TopSpreadPct(buyLeg.BestPrice().value, sellLeg.BestPrice().value) <= cand.grossSpreadPct
  }

  function TopSpreadPct(buyBest: real, sellBest: real): real {
    if buyBest == 0.0 then 0.0 else (sellBest - buyBest) / buyBest * 100.0
  }

  /** The trade loses money or misses the return bar. */
  ghost predicate HopelessAt(cfg: ScannerConfig, bd: ProfitBreakdown) {
    bd.netProfitUsd <= 0.0 || bd.roiPct < cfg.minRoiPct
  }

  /** If at every size the trade loses money or misses the return bar, nothing is published. */
  lemma HopelessIsRejected(cfg: ScannerConfig, env: Environment, cand: Candidate, buyBook: OrderBook,
                           sellBook: OrderBook)
    requires BooksUsable(cand, Some(buyBook), Some(sellBook))
    requires var buyLeg, sellLeg := BuyLegOf(cand, buyBook), SellLegOf(cand, sellBook);
      var sat := Saturation(cfg, buyLeg, sellLeg, cand.buyLeg.venueType, cand.sellLeg.venueType);
      forall size :: 0.0 < size <= sat && ComputeAtSize(size, buyLeg, sellLeg, ResolveFees(cfg, env, cand)).Some?
        ==> HopelessAt(cfg, ComputeAtSize(size, buyLeg, sellLeg, ResolveFees(cfg, env, cand)).value)
    ensures FullPipeline(cfg, env, cand, Some(buyBook), Some(sellBook)).Rejected?
  {
    hide ComputeAtSize, Saturation, Swept, Decay, Recommended, MaxRecommended;
    var buyLeg, sellLeg, fees := BuyLegOf(cand, buyBook), SellLegOf(cand, sellBook), ResolveFees(cfg, env, cand);
    var bt, st := cand.buyLeg.venueType, cand.sellLeg.venueType;
    var result := Optimize(cfg, buyLeg, sellLeg, fees, bt, st);
    if result.Some? {
      var sat := Saturation(cfg, buyLeg, sellLeg, bt, st);
      RecommendationIsComplete(cfg, buyLeg, sellLeg, fees, bt, st);
      var k :| 0 <= k < |SWEEP|
        && Some(result.value.0) == ComputeAtSize(Notional(sat, SWEEP[k]), buyLeg, sellLeg, fees);
      SweepSizeBounds(sat, k);
    }
  }

  /** What the pipeline publishes passed every gate. */
  lemma PublishedPassed(cfg: ScannerConfig, env: Environment, cand: Candidate,
                        buyBook: Option<OrderBook>, sellBook: Option<OrderBook>)
    requires BooksUsable(cand, buyBook, sellBook) && FullPipeline(cfg, env, cand, buyBook, sellBook).Published?
    ensures buyBook.Some? && sellBook.Some?
    ensures var result := FullPipeline(cfg, env, cand, buyBook, sellBook);
      && Validate(cfg, ContextFor(env, cand, result.breakdown, result.sizing)).None?
      && env.buyStatus.SignalAllowed() && env.sellStatus.SignalAllowed()
  {
    hide Optimize;
    var result := FullPipeline(cfg, env, cand, buyBook, sellBook);
    PassesIff(cfg, ContextFor(env, cand, result.breakdown, result.sizing));
  }

  /** And it is a computation at a swept size. */
  lemma PublishedIsSwept(cfg: ScannerConfig, env: Environment, cand: Candidate, buyBook: OrderBook, sellBook: OrderBook)
    requires BooksUsable(cand, Some(buyBook), Some(sellBook))
    requires FullPipeline(cfg, env, cand, Some(buyBook), Some(sellBook)).Published?
    ensures var buyLeg, sellLeg := BuyLegOf(cand, buyBook), SellLegOf(cand, sellBook);
      var sat := Saturation(cfg, buyLeg, sellLeg, cand.buyLeg.venueType, cand.sellLeg.venueType);
      var result := FullPipeline(cfg, env, cand, Some(buyBook), Some(sellBook));
      && sat > 0.0 && result.sizing.recommendedSizeUsd == result.breakdown.sizeUsd
      && exists k :: 0 <= k < |SWEEP| && Some(result.breakdown)
           == ComputeAtSize(Notional(sat, SWEEP[k]), buyLeg, sellLeg, ResolveFees(cfg, env, cand))
  {
    hide ComputeAtSize, Saturation, Swept, Decay, Recommended, MaxRecommended, Validate, Notional;
    RecommendationIsComplete(cfg, BuyLegOf(cand, buyBook), SellLegOf(cand, sellBook), ResolveFees(cfg, env, cand),
                             cand.buyLeg.venueType, cand.sellLeg.venueType);
  }

  /** The quotes without which a candidate's fees are unknown. */
  predicate FeesKnown(env: Environment, cand: Candidate) {
    && (cand.buyLeg.venueType != DEX ==> cand.buyLeg.venue in env.takerRates)
    && (cand.sellLeg.venueType != DEX ==> cand.sellLeg.venue in env.takerRates)
    && ((cand.arbType == CEX_CEX || cand.arbType == CEX_DEX) ==> env.withdrawalQuote.Some?)
    && (cand.buyLeg.venueType == DEX || cand.sellLeg.venueType == DEX ==> env.gasQuote.Some?)
    && (cand.arbType == CROSS_CHAIN ==> cand.bridgeFeeUsd.Some?)
  }

  lemma ResolvedMeansKnown(cfg: ScannerConfig, env: Environment, cand: Candidate)
    ensures ALL_CATEGORIES <= ResolveFees(cfg, env, cand).ResolvedCategories() <==> FeesKnown(env, cand)
  {
    var all := ResolveFees(cfg, env, cand).ResolvedCategories();
    assert ALL_CATEGORIES <= all
      <==> Trading in all && Withdrawal in all && Gas in all && Bridge in all && Slippage in all;
  }

  /** The cheap test, from the quotes: with both rates known it rejects exactly a spread that does not exceed them and
      the conversion, or exceeds them by less than the return bar. */
  lemma PreGateMeans(cfg: ScannerConfig, env: Environment, cand: Candidate)
    ensures var known := (cand.buyLeg.venueType == DEX || cand.buyLeg.venue in env.takerRates)
                         && (cand.sellLeg.venueType == DEX || cand.sellLeg.venue in env.takerRates);
      known ==>
        var rates := (if cand.buyLeg.venueType == DEX then 0.0 else env.takerRates[cand.buyLeg.venue])
                     + (if cand.sellLeg.venueType == DEX then 0.0 else env.takerRates[cand.sellLeg.venue]);
        var left := cand.grossSpreadPct - rates * 100.0
                    - (if cand.quote == "cross" then cfg.stablecoinCrossquoteBps / 100.0 else 0.0);
        && (PreGate(cfg, env, cand).Some? <==> left <= 0.0 || left < cfg.minRoiPct)
        && (PreGate(cfg, env, cand).Some? ==>
              PreGate(cfg, env, cand).value == if left <= 0.0 then UNPROFITABLE_AFTER_FEES else BELOW_MIN_PROFIT)
    ensures cand.buyLeg.venueType != DEX && cand.buyLeg.venue !in env.takerRates ==> PreGate(cfg, env, cand).None?
    ensures cand.sellLeg.venueType != DEX && cand.sellLeg.venue !in env.takerRates ==> PreGate(cfg, env, cand).None?
  {
  }

  /** Every fee is the quote of its own leg or of the candidate, and charged only where it is due. */
  lemma FeesAreTheQuotes(cfg: ScannerConfig, env: Environment, cand: Candidate)
    requires FeesKnown(env, cand)
    ensures var fees := ResolveFees(cfg, env, cand);
      && fees.buyFeeRate == Some(if cand.buyLeg.venueType == DEX then 0.0 else env.takerRates[cand.buyLeg.venue])
      && fees.sellFeeRate == Some(if cand.sellLeg.venueType == DEX then 0.0 else env.takerRates[cand.sellLeg.venue])
      && OrZero(fees.withdrawalFeeUsd)
         == (if cand.arbType == CEX_CEX || cand.arbType == CEX_DEX then env.withdrawalQuote.value else 0.0)
      && OrZero(fees.gasFeeUsd)
         == (if cand.buyLeg.venueType == DEX || cand.sellLeg.venueType == DEX then env.gasQuote.value else 0.0)
      && OrZero(fees.bridgeFeeUsd) == (if cand.arbType == CROSS_CHAIN then cand.bridgeFeeUsd.value else 0.0)
      && fees.conversionCostBps == (if cand.quote == "cross" then cfg.stablecoinCrossquoteBps else 0.0)
  {
  }

  /** The trade behind a breakdown: its size buys coins at the buy leg's fill, and those same coins are sold at the
      sell leg's, neither beating its top; here x and y are the fills. */
  ghost predicate TradesAt(size: real, buyLeg: Leg, sellLeg: Leg, x: real, y: real)
    requires buyLeg.Usable() && sellLeg.Usable()
  {
    && buyLeg.BestPrice().Some? && sellLeg.BestPrice().Some? && buyLeg.FillPrice(size) == Some(x)
    && x >= buyLeg.BestPrice().value > 0.0 && 0.0 < y <= sellLeg.BestPrice().value
    && sellLeg.FillPrice(Notional(size / x, sellLeg.BestPrice().value)) == Some(y)
  }

  /** The books of that trade, in the amounts that were quoted: each venue's own taker rate, on what was spent and
      on what was received (none on a pool); the withdrawal between exchanges or from one to a pool; the gas of
      a pool; the bridge of a cross-chain route; the conversion of a cross quote; and the profit that is left. */
  ghost predicate Accounts(cfg: ScannerConfig, env: Environment, cand: Candidate, bd: ProfitBreakdown,
                           buyLeg: Leg, sellLeg: Leg, x: real, y: real)
    requires buyLeg.Usable() && sellLeg.Usable() && FeesKnown(env, cand)
    requires buyLeg.BestPrice().Some? && sellLeg.BestPrice().Some? && x > 0.0
  {
    var size, coins := bd.sizeUsd, bd.sizeUsd / x;
    var buyBest, sellBest := buyLeg.BestPrice().value, sellLeg.BestPrice().value;
    var buyFee := Notional(size, if cand.buyLeg.venueType == DEX then 0.0 else env.takerRates[cand.buyLeg.venue]);
    var sellFee := Notional(Notional(coins, y),
                            if cand.sellLeg.venueType == DEX then 0.0 else env.takerRates[cand.sellLeg.venue]);
    && bd.withdrawalFeesUsd
       == (if cand.arbType == CEX_CEX || cand.arbType == CEX_DEX then env.withdrawalQuote.value else 0.0)
    && bd.gasFeesUsd
       == (if cand.buyLeg.venueType == DEX || cand.sellLeg.venueType == DEX then env.gasQuote.value else 0.0)
    && bd.bridgeFeesUsd == (if cand.arbType == CROSS_CHAIN then cand.bridgeFeeUsd.value else 0.0)
    && bd.conversionCostUsd
       == Notional(size, (if cand.quote == "cross" then cfg.stablecoinCrossquoteBps else 0.0) / 10000.0)
    && bd.grossProfitUsd == Notional(coins, sellBest - buyBest)
    && bd.tradingFeesUsd
       == buyFee + sellFee + buyLeg.PoolFeeCostUsd(size) + sellLeg.PoolFeeCostUsd(Notional(coins, sellBest))
    && bd.slippageCostUsd == PriceImpact(buyLeg, coins, x, buyBest) + PriceImpact(sellLeg, coins, y, sellBest)
    && Notional(coins, y) == size + buyFee + sellFee + bd.withdrawalFeesUsd + bd.gasFeesUsd + bd.bridgeFeesUsd
                             + bd.conversionCostUsd + bd.netProfitUsd
    && Notional(size, bd.roiPct) == Notional(100.0, bd.netProfitUsd) && bd.netProfitPct == bd.roiPct
    && bd.grossSpreadPct == TopSpreadPct(buyBest, sellBest)
  }

  lemma ComputedAccounts(cfg: ScannerConfig, env: Environment, cand: Candidate, size: real, buyLeg: Leg, sellLeg: Leg)
    requires SoundTrade(buyLeg, sellLeg) && FeesKnown(env, cand)
    requires ComputeAtSize(size, buyLeg, sellLeg, ResolveFees(cfg, env, cand)).Some?
    ensures FillsAt(size, buyLeg, sellLeg).Some?
    ensures var f, bd := FillsAt(size, buyLeg, sellLeg).value,
                         ComputeAtSize(size, buyLeg, sellLeg, ResolveFees(cfg, env, cand)).value;
      && bd.sizeUsd == size && TradesAt(size, buyLeg, sellLeg, f.buyFill, f.sellFill)
      && Accounts(cfg, env, cand, bd, buyLeg, sellLeg, f.buyFill, f.sellFill)
  {
    hide ComputeAtSize, FillsAt, Notional, ResolveFees, FeesKnown, Leg.BestPrice, Leg.FillPrice, PriceImpact;
    hide TopSpreadPct, Leg.Sound, Leg.PoolFeeCostUsd;
    var fees := ResolveFees(cfg, env, cand);
    SpreadOfBreakdown(size, buyLeg, sellLeg, fees);
    ComputedSize(size, buyLeg, sellLeg, fees);
    ComputedColumns(size, buyLeg, sellLeg, fees);
    ProfitAccounting(size, buyLeg, sellLeg, fees);
    FillsAreHonest(size, buyLeg, sellLeg);
    FillsOfLegs(size, buyLeg, sellLeg);
    FeesAreTheQuotes(cfg, env, cand);
  }

  lemma FillsOfLegs(size: real, buyLeg: Leg, sellLeg: Leg)
    requires buyLeg.Usable() && sellLeg.Usable() && FillsAt(size, buyLeg, sellLeg).Some?
    ensures buyLeg.BestPrice().Some? && sellLeg.BestPrice().Some?
    ensures var f := FillsAt(size, buyLeg, sellLeg).value;
      && f.buyFill > 0.0 && buyLeg.FillPrice(size) == Some(f.buyFill) && f.baseSize == size / f.buyFill
      && sellLeg.FillPrice(Notional(f.baseSize, sellLeg.BestPrice().value)) == Some(f.sellFill)
  {
    hide Leg.FillPrice, Leg.BestPrice;
  }

  lemma ComputedColumns(size: real, buyLeg: Leg, sellLeg: Leg, fees: FeeInputs)
    requires buyLeg.Usable() && sellLeg.Usable() && ComputeAtSize(size, buyLeg, sellLeg, fees).Some?
    ensures FillsAt(size, buyLeg, sellLeg).Some? && buyLeg.BestPrice().Some? && sellLeg.BestPrice().Some?
    ensures var f, bd := FillsAt(size, buyLeg, sellLeg).value, ComputeAtSize(size, buyLeg, sellLeg, fees).value;
      && bd.withdrawalFeesUsd == OrZero(fees.withdrawalFeeUsd) && bd.gasFeesUsd == OrZero(fees.gasFeeUsd)
      && bd.bridgeFeesUsd == OrZero(fees.bridgeFeeUsd)
      && bd.conversionCostUsd == Notional(size, fees.conversionCostBps / 10000.0)
      && bd.grossProfitUsd == Notional(f.baseSize, sellLeg.BestPrice().value - buyLeg.BestPrice().value)
      && bd.netProfitPct == bd.roiPct
  {
    hide Notional;
  }

  /** What a published signal guarantees whoever trades on it. It is sized at a fraction of what both books allow.
      The coins it buys, at no better than the top prices, fetch what was paid for them, plus every quoted fee,
      plus its net profit. That profit clears both bars, and the gas takes no more of the gross than it may. Every
      fee had a quote. The tops are not implausibly apart. A cross-chain route has a bridge that is in time. And
      liquidity, confidence, warm-up, age and the status of both venues are as they must be. */
  lemma PublishedMeans(cfg: ScannerConfig, env: Environment, cand: Candidate, buyBook: OrderBook, sellBook: OrderBook)
    requires BooksUsable(cand, Some(buyBook), Some(sellBook))
    requires AssembleSpot(cfg, env, cand, Some(buyBook), Some(sellBook)).Published?
    requires SoundTrade(BuyLegOf(cand, buyBook), SellLegOf(cand, sellBook))
    ensures FeesKnown(env, cand)
    ensures var bd := AssembleSpot(cfg, env, cand, Some(buyBook), Some(sellBook)).breakdown;
      var buyLeg, sellLeg := BuyLegOf(cand, buyBook), SellLegOf(cand, sellBook);
      var sat := Saturation(cfg, buyLeg, sellLeg, cand.buyLeg.venueType, cand.sellLeg.venueType);
      && (exists k :: 0 <= k < |SWEEP| && bd.sizeUsd == Notional(sat, SWEEP[k]))
      && (exists x, y :: TradesAt(bd.sizeUsd, buyLeg, sellLeg, x, y)
                         && Accounts(cfg, env, cand, bd, buyLeg, sellLeg, x, y))
      && bd.netProfitUsd > 0.0 && bd.netProfitUsd >= cfg.minNetProfitUsd && bd.roiPct >= cfg.minRoiPct
      && buyLeg == (if cand.buyLeg.venueType == DEX then DexPoolLeg(buyBook, Buy) else CexBookLeg(buyBook, Buy))
      && sellLeg == (if cand.sellLeg.venueType == DEX then DexPoolLeg(sellBook, Sell) else CexBookLeg(sellBook, Sell))
    ensures var bd := AssembleSpot(cfg, env, cand, Some(buyBook), Some(sellBook)).breakdown;
      var pool := cand.buyLeg.venueType == DEX || cand.sellLeg.venueType == DEX;
      && bd.sizeUsd >= cfg.minTradeableSizeUsd && bd.grossSpreadPct <= cfg.implausibleSpreadPct
      && (bd.grossProfitUsd > 0.0 ==> bd.gasFeesUsd / bd.grossProfitUsd * 100.0 <= cfg.maxGasPctOfGross)
      && (cand.arbType == CROSS_CHAIN ==>
            cand.bridgeName.Some? && (cand.bridgeTimeSec.Some? ==> cand.bridgeTimeSec.value <= cfg.maxBridgeTimeSec))
      && env.liquidityUsd >= (if pool then cfg.minLiquidityDexUsd else cfg.minLiquidityCexUsd)
      && env.liquidityScore >= cfg.liquidityScoreFloor && env.confidence >= cfg.confidenceThreshold
      && env.warmedUp && env.stalenessSec <= env.allowedStalenessSec
      && env.buyStatus in {ONLINE, DEGRADED} && env.sellStatus in {ONLINE, DEGRADED}
  {
    var result := AssembleSpot(cfg, env, cand, Some(buyBook), Some(sellBook));
    var bd := result.breakdown;
    PublishedIsSwept(cfg, env, cand, buyBook, sellBook);
    PublishedPassed(cfg, env, cand, Some(buyBook), Some(sellBook));
    PassesIff(cfg, ContextFor(env, cand, bd, result.sizing));
    hide AssembleSpot, ComputeAtSize, Saturation, Validate, Notional, Accounts, TradesAt, FeesKnown, ResolveFees;
    hide FeeInputs.ResolvedCategories, FillsAt;
    var buyLeg, sellLeg, fees := BuyLegOf(cand, buyBook), SellLegOf(cand, sellBook), ResolveFees(cfg, env, cand);
    var sat := Saturation(cfg, buyLeg, sellLeg, cand.buyLeg.venueType, cand.sellLeg.venueType);
    var k :| 0 <= k < |SWEEP| && Some(bd) == ComputeAtSize(Notional(sat, SWEEP[k]), buyLeg, sellLeg, fees);
    SpreadOfBreakdown(Notional(sat, SWEEP[k]), buyLeg, sellLeg, fees);
    ResolvedMeansKnown(cfg, env, cand);
    ComputedAccounts(cfg, env, cand, Notional(sat, SWEEP[k]), buyLeg, sellLeg);
  }

  /** And a rejection for too little profit means that no size tried clears both bars. */
  lemma TooLittleProfitAtEverySize(cfg: ScannerConfig, env: Environment, cand: Candidate, buyBook: OrderBook,
                                   sellBook: OrderBook)
    requires BooksUsable(cand, Some(buyBook), Some(sellBook))
    requires FullPipeline(cfg, env, cand, Some(buyBook), Some(sellBook)) == Rejected(BELOW_MIN_PROFIT)
    ensures var buyLeg, sellLeg := BuyLegOf(cand, buyBook), SellLegOf(cand, sellBook);
      var fees := ResolveFees(cfg, env, cand);
      var sat := Saturation(cfg, buyLeg, sellLeg, cand.buyLeg.venueType, cand.sellLeg.venueType);
      forall k :: 0 <= k < |SWEEP| ==> !SweepSizeClears(k, cfg, sat, buyLeg, sellLeg, fees)
  {
    hide SweepSizeClears, Optimize;
    RecommendationIsComplete(cfg, BuyLegOf(cand, buyBook), SellLegOf(cand, sellBook), ResolveFees(cfg, env, cand),
                             cand.buyLeg.venueType, cand.sellLeg.venueType);
  }

  /** On what the optimizer recommends, the gate on the largest viable position never fires: a size that
      passed the profit and tradeable-size gates is itself viable. */
  lemma NoViableSizeGateIsDead(cfg: ScannerConfig, env: Environment, cand: Candidate, buyBook: OrderBook,
                               sellBook: OrderBook)
    requires BooksUsable(cand, Some(buyBook), Some(sellBook))
    ensures var result := Optimize(cfg, BuyLegOf(cand, buyBook), SellLegOf(cand, sellBook), ResolveFees(cfg, env, cand),
                                   cand.buyLeg.venueType, cand.sellLeg.venueType);
      result.Some? ==>
        Validate(cfg, ContextFor(env, cand, result.value.0, result.value.1)) != Some(NO_VIABLE_SIZE)
  {
    hide Optimize, SweepSizeClears;
    var buyLeg, sellLeg, fees := BuyLegOf(cand, buyBook), SellLegOf(cand, sellBook), ResolveFees(cfg, env, cand);
    if Optimize(cfg, buyLeg, sellLeg, fees, cand.buyLeg.venueType, cand.sellLeg.venueType).Some? {
      RecommendationIsComplete(cfg, buyLeg, sellLeg, fees, cand.buyLeg.venueType, cand.sellLeg.venueType);
    }
  }

  lemma SweepSizeBounds(sat: real, k: int)
    requires sat > 0.0 && 0 <= k < |SWEEP|
    ensures 0.0 < Notional(sat, SWEEP[k]) <= sat
  {
  }

  /** The pre-gate discards only candidates the full pipeline rejects too, whatever the books,
      quotes and scores are, as long as the books' own spread is covered by the candidate's. */
  lemma PreGateIsLossless(cfg: ScannerConfig, env: Environment, cand: Candidate,
                          buyBook: Option<OrderBook>, sellBook: Option<OrderBook>)
    requires cfg.InRange() && cfg.stablecoinCrossquoteBps >= 0.0 && env.InRange() && OrZero(cand.bridgeFeeUsd) >= 0.0
    requires BooksUsable(cand, buyBook, sellBook)
    requires buyBook.Some? && sellBook.Some? ==> SpreadCovers(cand, buyBook.value, sellBook.value)
    ensures AssembleSpot(cfg, env, cand, buyBook, sellBook).Published?
            <==> FullPipeline(cfg, env, cand, buyBook, sellBook).Published?
  {
    hide ComputeAtSize, Saturation, Optimize;
    if PreGate(cfg, env, cand).Some? && buyBook.Some? && sellBook.Some? {
      var buyLeg, sellLeg := BuyLegOf(cand, buyBook.value), SellLegOf(cand, sellBook.value);
      var fees := ResolveFees(cfg, env, cand);
      forall size | 0.0 < size && ComputeAtSize(size, buyLeg, sellLeg, fees).Some?
        ensures HopelessAt(cfg, ComputeAtSize(size, buyLeg, sellLeg, fees).value)
      {
        SpreadOfBreakdown(size, buyLeg, sellLeg, fees);
        BelowFloorIsHopeless(cfg, size, buyLeg, sellLeg, fees, cand.grossSpreadPct, 0.0);
      }
      HopelessIsRejected(cfg, env, cand, buyBook.value, sellBook.value);
    }
  }

  lemma SpreadOfBreakdown(size: real, buyLeg: Leg, sellLeg: Leg, fees: FeeInputs)
    requires buyLeg.Usable() && sellLeg.Usable() && ComputeAtSize(size, buyLeg, sellLeg, fees).Some?
    ensures buyLeg.BestPrice().Some? && sellLeg.BestPrice().Some?
    ensures var bd := ComputeAtSize(size, buyLeg, sellLeg, fees).value;
      && bd.grossSpreadPct == TopSpreadPct(buyLeg.BestPrice().value, sellLeg.BestPrice().value)
      && bd.resolvedCategories == fees.ResolvedCategories()
  {
    hide Notional;
  }

  /** One size: a spread below the rate floor plus the fixed costs plus the bar cannot clear the bar. */
  lemma BelowFloorIsHopeless(cfg: ScannerConfig, size: real, buyLeg: Leg, sellLeg: Leg, fees: FeeInputs,
                             gross: real, fixedPct: real)
    requires SoundTrade(buyLeg, sellLeg) && fees.NonNegative() && cfg.InRange()
    requires ComputeAtSize(size, buyLeg, sellLeg, fees).Some?
    requires ComputeAtSize(size, buyLeg, sellLeg, fees).value.grossSpreadPct <= gross
    requires size > 0.0 ==> fixedPct <= fees.FixedUsd() / size * 100.0
    requires gross <= fees.RateFloorPct() + fixedPct || gross < fees.RateFloorPct() + fixedPct + cfg.minRoiPct
    ensures HopelessAt(cfg, ComputeAtSize(size, buyLeg, sellLeg, fees).value)
  {
    hide ComputeAtSize;
    RoiBound(size, buyLeg, sellLeg, fees);
    assert fees.FixedUsd() / size * 100.0 >= 0.0 by {
      SignKept(fees.FixedUsd() / size, size);
    }
  }

  // ── a case the cover condition shuts out ──

  /** A route whose books show a wide spread while the quotes behind the candidate show none. */
  function DisagreeingCandidate(): Candidate {
    Candidate(CEX_CEX, "COIN", "USDT", LegRef("a", CEX, 1.0, None, None), LegRef("b", CEX, 1.0, None, None),
              0.0, None, None, None, None, None, None)
  }

  /** When the books disagree with the quotes the pre-gate is not exact: it rejects this candidate
      at once, and the full pipeline would have published it. */
  lemma PreGateNeedsCoveredSpread(cfg: ScannerConfig, env: Environment)
    requires cfg.InRange() && cfg.minRoiPct <= 40.0 && cfg.minNetProfitUsd <= 400.0
    requires cfg.implausibleSpreadPct >= 50.0 && cfg.minTradeableSizeUsd <= 250.0 && cfg.maxGasPctOfGross >= 0.0
    requires env.takerRates == map["a" := 0.001, "b" := 0.001] && env.withdrawalQuote == Some(0.0)
    requires env.liquidityUsd >= cfg.minLiquidityCexUsd && env.liquidityScore >= cfg.liquidityScoreFloor
    requires env.confidence >= cfg.confidenceThreshold && env.warmedUp
    requires env.buyStatus == ONLINE && env.sellStatus == ONLINE && env.stalenessSec <= env.allowedStalenessSec
    ensures var cand := DisagreeingCandidate();
      var buyBook, sellBook := Some(OneLevelBook(BookLevel(1.0, 1000.0), BookLevel(1.0, 1000.0))),
                               Some(OneLevelBook(BookLevel(1.5, 1000.0), BookLevel(1.5, 1000.0)));
      && BooksUsable(cand, buyBook, sellBook)
      && AssembleSpot(cfg, env, cand, buyBook, sellBook) == Rejected(UNPROFITABLE_AFTER_FEES)
      && FullPipeline(cfg, env, cand, buyBook, sellBook).Published?
  {
    hide ComputeAtSize, Saturation, Optimize, FillsAt;
    var cand := DisagreeingCandidate();
    var ask, bid := BookLevel(1.0, 1000.0), BookLevel(1.5, 1000.0);
    var buyLeg, sellLeg, fees := OneLevelLeg(ask, Buy), OneLevelLeg(bid, Sell), ResolveFees(cfg, env, cand);
    assert BuyLegOf(cand, OneLevelBook(ask, ask)) == buyLeg && SellLegOf(cand, OneLevelBook(bid, bid)) == sellLeg;
    WideTrade(cfg, fees);
    RecommendationIsComplete(cfg, buyLeg, sellLeg, fees, CEX, CEX);
    assert SweepSizeClears(3, cfg, 1000.0, buyLeg, sellLeg, fees);
    var (best, sizing) := Optimize(cfg, buyLeg, sellLeg, fees, CEX, CEX).value;
    var k :| 0 <= k < |SWEEP| && Some(best) == ComputeAtSize(Notional(1000.0, SWEEP[k]), buyLeg, sellLeg, fees);
    WideTradeAt(Notional(1000.0, SWEEP[k]), fees);
    assert FlatFeeRate(env, cand.buyLeg) == Some(0.001) && FlatFeeRate(env, cand.sellLeg) == Some(0.001);
  }

  /** Buying at 1.0 and selling at 1.5 on one-level books, at 0.1% a side. */
  lemma WideTrade(cfg: ScannerConfig, fees: FeeInputs)
    requires cfg.InRange() && cfg.minRoiPct <= 40.0 && cfg.minNetProfitUsd <= 400.0
    requires fees.buyFeeRate == Some(0.001) && fees.sellFeeRate == Some(0.001) && fees.FixedUsd() == 0.0
    requires fees.conversionCostBps == 0.0
    ensures var buyLeg, sellLeg := OneLevelLeg(BookLevel(1.0, 1000.0), Buy), OneLevelLeg(BookLevel(1.5, 1000.0), Sell);
      && buyLeg.Usable() && sellLeg.Usable()
      && Saturation(cfg, buyLeg, sellLeg, CEX, CEX) == 1000.0
      && SweepSizeClears(3, cfg, 1000.0, buyLeg, sellLeg, fees)
      && Optimize(cfg, buyLeg, sellLeg, fees, CEX, CEX).Some?
  {
    hide ComputeAtSize, FillsAt;
    var buyLeg, sellLeg := OneLevelLeg(BookLevel(1.0, 1000.0), Buy), OneLevelLeg(BookLevel(1.5, 1000.0), Sell);
    OneLevelFacts(BookLevel(1.0, 1000.0), Buy, cfg.maxSlippageCexPct, 1000.0);
    OneLevelFacts(BookLevel(1.5, 1000.0), Sell, cfg.maxSlippageCexPct, 1000.0);
    WideTradeAt(1000.0, fees);
    assert Notional(1000.0, SWEEP[3]) == 1000.0;
    SweepMembers(|SWEEP|, 1000.0, buyLeg, sellLeg, fees);
    assert ComputeAtSize(Notional(1000.0, SWEEP[3]), buyLeg, sellLeg, fees).value in Swept(|SWEEP|, 1000.0, buyLeg,
        sellLeg, fees);
  }

  lemma WideTradeAt(size: real, fees: FeeInputs)
    requires 0.0 < size <= 1000.0
    requires fees.buyFeeRate == Some(0.001) && fees.sellFeeRate == Some(0.001) && fees.FixedUsd() == 0.0
    requires fees.conversionCostBps == 0.0
    ensures var buyLeg, sellLeg := OneLevelLeg(BookLevel(1.0, 1000.0), Buy), OneLevelLeg(BookLevel(1.5, 1000.0), Sell);
      && buyLeg.Usable() && sellLeg.Usable()
      && ComputeAtSize(size, buyLeg, sellLeg, fees).Some?
      && var bd := ComputeAtSize(size, buyLeg, sellLeg, fees).value;
      && bd.netProfitUsd == size * 0.4975 && bd.roiPct == 49.75 && bd.grossSpreadPct == 50.0
      && bd.gasFeesUsd == OrZero(fees.gasFeeUsd) && bd.resolvedCategories == fees.ResolvedCategories()
      && bd.sizeUsd == size && bd.grossProfitUsd > 0.0
  {
    var ask, bid := BookLevel(1.0, 1000.0), BookLevel(1.5, 1000.0);
    var buyLeg, sellLeg := OneLevelLeg(ask, Buy), OneLevelLeg(bid, Sell);
    hide ComputeAtSize;
    WideFills(size);
    assert FillsAt(size, buyLeg, sellLeg) == Some(Fills(1.0, 1.5, size));
    WideBreakdown(size, fees);
  }

  lemma WideFills(size: real)
    requires 0.0 < size <= 1000.0
    ensures var buyLeg, sellLeg := OneLevelLeg(BookLevel(1.0, 1000.0), Buy), OneLevelLeg(BookLevel(1.5, 1000.0), Sell);
      && buyLeg.Usable() && sellLeg.Usable() && FillsAt(size, buyLeg, sellLeg) == Some(Fills(1.0, 1.5, size))
  {
    hide ComputeAtSize;
    var ask, bid := BookLevel(1.0, 1000.0), BookLevel(1.5, 1000.0);
    OneLevelFacts(ask, Buy, 0.0, size);
    OneLevelFacts(bid, Sell, 0.0, size);
    SaleOnOneLevel(ask, bid, size);
    OneLevelSale(bid, size);
  }

  lemma WideBreakdown(size: real, fees: FeeInputs)
    requires 0.0 < size <= 1000.0
    requires fees.buyFeeRate == Some(0.001) && fees.sellFeeRate == Some(0.001) && fees.FixedUsd() == 0.0
    requires fees.conversionCostBps == 0.0
    requires var buyLeg, sellLeg := OneLevelLeg(BookLevel(1.0, 1000.0), Buy), OneLevelLeg(BookLevel(1.5, 1000.0), Sell);
      buyLeg.Usable() && sellLeg.Usable() && FillsAt(size, buyLeg, sellLeg) == Some(Fills(1.0, 1.5, size))
    ensures var buyLeg, sellLeg := OneLevelLeg(BookLevel(1.0, 1000.0), Buy), OneLevelLeg(BookLevel(1.5, 1000.0), Sell);
      && ComputeAtSize(size, buyLeg, sellLeg, fees).Some?
      && var bd := ComputeAtSize(size, buyLeg, sellLeg, fees).value;
      && bd.netProfitUsd == size * 0.4975 && bd.roiPct == 49.75 && bd.grossSpreadPct == 50.0
      && bd.gasFeesUsd == OrZero(fees.gasFeeUsd) && bd.resolvedCategories == fees.ResolvedCategories()
      && bd.sizeUsd == size && bd.grossProfitUsd > 0.0
  {
    hide FillsAt;
  }

  lemma OneLevelSale(bid: BookLevel, baseSize: real)
    requires bid.price > 0.0 && 0.0 < baseSize <= bid.qty
    ensures OneLevelLeg(bid, Sell).FillPrice(Notional(baseSize, bid.price)) == Some(bid.price)
  {
    BaseFromNotional(baseSize, bid.price);
    OneLevelFill(bid, baseSize);
  }
}
