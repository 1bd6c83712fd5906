/** The ordered gates a signal must pass (src/scanner/validation/validator.py). */
module Validator {
  import opened Prelude
  import opened Market
  import opened Config
  import opened ProfitEngine

  datatype RejectReason =
    | BELOW_MIN_PROFIT | INSUFFICIENT_LIQUIDITY | UNPROFITABLE_AFTER_FEES | STALE_DATA | EXCHANGE_NOT_ONLINE
    | LOW_CONFIDENCE | IMPLAUSIBLE_SPREAD | UNVERIFIED_TOKEN | NO_BRIDGE_ROUTE | BRIDGE_TIME_EXCEEDED
    | GAS_EXCEEDS_LIMIT | NOT_WARMED_UP | MISSING_FEE_DATA | NO_VIABLE_SIZE

  datatype ValidationContext = ValidationContext(
    breakdown: ProfitBreakdown,
    sizing: SizingProfile,
    liquidityUsd: real,
    liquidityScore: real,
    confidenceScore: real,
    buyStatus: ExchangeStatus,
    sellStatus: ExchangeStatus,
    maxDataStalenessSec: real,
    maxAllowedStalenessSec: real,
    venueTypeForFloor: VenueType,
    tokenVerified: bool,
    warmedUp: bool,
    gasFeeUsd: real,
    grossProfitUsd: real,
    bridgeTimeSec: Option<int>,
    isCrossChain: bool,
    hasBridgeRoute: bool)

  /** None when every gate passes, else the first gate's reason. */
  function Validate(cfg: ScannerConfig, ctx: ValidationContext): Option<RejectReason> {
    var bd := ctx.breakdown;
    if bd.grossSpreadPct > cfg.implausibleSpreadPct then Some(IMPLAUSIBLE_SPREAD)
    else if !ctx.tokenVerified then Some(UNVERIFIED_TOKEN)
    else if ctx.isCrossChain && !ctx.hasBridgeRoute then Some(NO_BRIDGE_ROUTE)
    else if ctx.isCrossChain && ctx.bridgeTimeSec.Some? && ctx.bridgeTimeSec.value > cfg.maxBridgeTimeSec
    then Some(BRIDGE_TIME_EXCEEDED)
    else if bd.netProfitUsd < cfg.minNetProfitUsd || bd.roiPct < cfg.minRoiPct then Some(BELOW_MIN_PROFIT)
    else if ctx.liquidityUsd < cfg.MinLiquidityUsd(ctx.venueTypeForFloor) then Some(INSUFFICIENT_LIQUIDITY)
    else if ctx.liquidityScore < cfg.liquidityScoreFloor then Some(INSUFFICIENT_LIQUIDITY)
    else if ctx.sizing.recommendedSizeUsd < cfg.minTradeableSizeUsd then Some(INSUFFICIENT_LIQUIDITY)
    else if ctx.sizing.maxRecommendedPositionUsd < cfg.minTradeableSizeUsd then Some(NO_VIABLE_SIZE)
    else if !(ALL_CATEGORIES <= bd.resolvedCategories) then Some(MISSING_FEE_DATA)
    else if bd.netProfitUsd <= 0.0 then Some(UNPROFITABLE_AFTER_FEES)
    else if ctx.grossProfitUsd > 0.0 && ctx.gasFeeUsd / ctx.grossProfitUsd * 100.0 > cfg.maxGasPctOfGross
    then Some(GAS_EXCEEDS_LIMIT)
    else if !ctx.warmedUp then Some(NOT_WARMED_UP)
    else if ctx.maxDataStalenessSec > ctx.maxAllowedStalenessSec then Some(STALE_DATA)
    else if !(ctx.buyStatus.SignalAllowed() && ctx.sellStatus.SignalAllowed()) then Some(EXCHANGE_NOT_ONLINE)
    else if ctx.confidenceScore < cfg.confidenceThreshold then Some(LOW_CONFIDENCE)
    else None
  }

  predicate GasWithinLimit(cfg: ScannerConfig, ctx: ValidationContext) {
    ctx.grossProfitUsd <= 0.0 || ctx.gasFeeUsd / ctx.grossProfitUsd * 100.0 <= cfg.maxGasPctOfGross
  }

  /** A signal passes exactly when it is plausible, on verified tokens, executable over a bridge in time if it
      needs one, worth its while, liquid, fully costed, within the gas limit, warmed up, fresh, on venues that
      may signal, and confident enough. */
  lemma PassesIff(cfg: ScannerConfig, ctx: ValidationContext)
    ensures Validate(cfg, ctx).None? <==>
      && ctx.breakdown.grossSpreadPct <= cfg.implausibleSpreadPct && ctx.tokenVerified
      && (ctx.isCrossChain ==>
            ctx.hasBridgeRoute && (ctx.bridgeTimeSec.None? || ctx.bridgeTimeSec.value <= cfg.maxBridgeTimeSec))
      && ClearsGateOne(cfg, ctx.breakdown) && ctx.breakdown.netProfitUsd > 0.0
      && ctx.liquidityUsd >= cfg.MinLiquidityUsd(ctx.venueTypeForFloor) && ctx.liquidityScore >= cfg.liquidityScoreFloor
      && ctx.sizing.recommendedSizeUsd >= cfg.minTradeableSizeUsd
      && ctx.sizing.maxRecommendedPositionUsd >= cfg.minTradeableSizeUsd
      && ALL_CATEGORIES <= ctx.breakdown.resolvedCategories && GasWithinLimit(cfg, ctx) && ctx.warmedUp
      && ctx.maxDataStalenessSec <= ctx.maxAllowedStalenessSec
      && ctx.buyStatus.SignalAllowed() && ctx.sellStatus.SignalAllowed()
      && ctx.confidenceScore >= cfg.confidenceThreshold
  {
  }
}
