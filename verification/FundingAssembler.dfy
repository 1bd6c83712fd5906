/** From a funding candidate to a verdict (src/scanner/assembler.py:340-437), and what the detector's
    funding threshold may drop without losing a signal. */
module FundingAssembler {
  import opened Prelude
  import opened Market
  import opened Config
  import opened Mathx
  import opened LiquidityLeg
  import opened ProfitEngine
  import opened Signals
  import opened Validator
  import opened Assembler
  import opened EconomicFloor

  /** A carry's breakdown: fees are one round trip at both venues' rates, and the return is on the margin
      of both legs, twice the notional. */
  function CarryBreakdown(cfg: ScannerConfig, rates: map<string, real>, cand: Candidate): ProfitBreakdown {
    var size, annualized := cfg.fundingPositionSizeUsd, OrZero(cand.fundingAnnualizedSpread);
    var gross := size * annualized * HoldFraction(cfg);
    var fees := size * RoundTripTaker(rates, cand.buyLeg.venue, cand.sellLeg.venue);
    var roi := CarryRoiPct(cfg, gross - fees);
    ProfitBreakdown(size, gross, fees, 0.0, 0.0, 0.0, 0.0, 0.0, gross - fees, roi, cand.grossSpreadPct, roi,
                    ALL_CATEGORIES)
  }

  function CarryRoiPct(cfg: ScannerConfig, net: real): real {
    if cfg.fundingPositionSizeUsd == 0.0 then 0.0 else net / (cfg.fundingPositionSizeUsd * 2.0) * 100.0
  }

  function CarrySizing(cfg: ScannerConfig, roi: real): SizingProfile {
    var size := cfg.fundingPositionSizeUsd;
    SizingProfile(size, size * 2.0, size, size * 2.0, [(100.0, roi)])
  }

  function CarryContext(cfg: ScannerConfig, env: Environment, bd: ProfitBreakdown, ageSec: real): ValidationContext {
    ValidationContext(
      bd, CarrySizing(cfg, bd.roiPct), env.liquidityUsd, env.liquidityScore, env.confidence, env.buyStatus,
      env.sellStatus, ageSec, env.allowedStalenessSec, CEX, true, true, 0.0, bd.grossProfitUsd, None, false, true)
  }

  /** The age is that of the older of the two funding snapshots; None when the candidate lacks one. */
  function AssembleFunding(cfg: ScannerConfig, env: Environment, cand: Candidate, ageSec: Option<real>): Assembly {
    if cand.buyLeg.venue !in env.takerRates || cand.sellLeg.venue !in env.takerRates || ageSec.None?
    then Rejected(STALE_DATA)
    else
      var bd := CarryBreakdown(cfg, env.takerRates, cand);
      if bd.netProfitUsd <= 0.0 then Rejected(UNPROFITABLE_AFTER_FEES)
      else
        var verdict := Validate(cfg, CarryContext(cfg, env, bd, ageSec.value));
        if verdict.Some? then Rejected(verdict.value) else Published(bd, CarrySizing(cfg, bd.roiPct))
  }

  /** As the funding detector builds one: the spread shown is the annualised differential in percent. */
  predicate IsCarry(cand: Candidate, annualized: real) {
    cand.arbType == FUNDING && cand.fundingAnnualizedSpread == Some(annualized)
    && cand.grossSpreadPct == annualized * 100.0
  }

  /** The return on the notional that clears both bars; Gate 1 asks its percentage of twice the notional. */
  function CarryBar(cfg: ScannerConfig): real
    requires cfg.fundingPositionSizeUsd > 0.0
  {
    MaxReal(cfg.minNetProfitUsd / cfg.fundingPositionSizeUsd, cfg.minRoiPct * 2.0 / 100.0)
  }

  /** The annualised rate at which a carry clears both bars. */
  function PublishRate(cfg: ScannerConfig, rates: map<string, real>, buyVenue: string, sellVenue: string): real
    requires HoldFraction(cfg) > 0.0 && cfg.fundingPositionSizeUsd > 0.0
  {
    (CarryBar(cfg) + RoundTripTaker(rates, buyVenue, sellVenue)) / HoldFraction(cfg)
  }

  /** What publishing a carry takes besides its rate. */
  predicate CarryGatesPass(cfg: ScannerConfig, env: Environment, ageSec: Option<real>) {
    && ageSec.Some? && ageSec.value <= env.allowedStalenessSec
    && env.liquidityUsd >= cfg.minLiquidityCexUsd && env.liquidityScore >= cfg.liquidityScoreFloor
    && env.confidence >= cfg.confidenceThreshold && env.buyStatus.SignalAllowed() && env.sellStatus.SignalAllowed()
    && cfg.fundingPositionSizeUsd >= cfg.minTradeableSizeUsd
  }

  predicate RatePublishes(cfg: ScannerConfig, publishRate: real, annualized: real)
    requires cfg.fundingPositionSizeUsd > 0.0
  {
    annualized >= publishRate && (CarryBar(cfg) == 0.0 ==> annualized > publishRate)
    && annualized * 100.0 <= cfg.implausibleSpreadPct
  }

  /** A carry is published exactly when its rate reaches both bars (and exceeds the fees, should both bars be
      zero), is not implausible, and everything else about it passes. */
  lemma CarryPublishesIff(cfg: ScannerConfig, env: Environment, cand: Candidate, annualized: real,
                          ageSec: Option<real>)
    requires cfg.InRange() && cfg.maxGasPctOfGross >= 0.0
    requires HoldFraction(cfg) > 0.0 && cfg.fundingPositionSizeUsd > 0.0
    requires IsCarry(cand, annualized)
    requires cand.buyLeg.venue in env.takerRates && cand.sellLeg.venue in env.takerRates
    ensures AssembleFunding(cfg, env, cand, ageSec).Published? <==>
              RatePublishes(cfg, PublishRate(cfg, env.takerRates, cand.buyLeg.venue, cand.sellLeg.venue), annualized)
              && CarryGatesPass(cfg, env, ageSec)
  {
    var bd := CarryBreakdown(cfg, env.takerRates, cand);
    RateClearsBars(cfg, env.takerRates, cand, annualized);
    hide CarryBreakdown, PublishRate, CarryBar, HoldFraction;
    CarryIsPlain(cfg, env.takerRates, cand);
    if ageSec.Some? {
      PassesIff(cfg, CarryContext(cfg, env, bd, ageSec.value));
    }
  }

  lemma CarryIsPlain(cfg: ScannerConfig, rates: map<string, real>, cand: Candidate)
    ensures var bd := CarryBreakdown(cfg, rates, cand);
      bd.grossSpreadPct == cand.grossSpreadPct && bd.resolvedCategories == ALL_CATEGORIES
  {
  }

  lemma RateClearsBars(cfg: ScannerConfig, rates: map<string, real>, cand: Candidate, annualized: real)
    requires cfg.InRange() && HoldFraction(cfg) > 0.0 && cfg.fundingPositionSizeUsd > 0.0
    requires IsCarry(cand, annualized)
    ensures var bd := CarryBreakdown(cfg, rates, cand);
      var rate := PublishRate(cfg, rates, cand.buyLeg.venue, cand.sellLeg.venue);
      (bd.netProfitUsd > 0.0 && ClearsGateOne(cfg, bd))
      <==> annualized >= rate && (CarryBar(cfg) == 0.0 ==> annualized > rate)
  {
    hide HoldFraction, RoundTripTaker, PublishRate, CarryBar, CarryBreakdown, CarryRoiPct;
    var size, hold := cfg.fundingPositionSizeUsd, HoldFraction(cfg);
    var taker := RoundTripTaker(rates, cand.buyLeg.venue, cand.sellLeg.venue);
    CarryFigures(cfg, rates, cand, annualized);
    PublishRateSolves(cfg, rates, cand.buyLeg.venue, cand.sellLeg.venue);
    PerNotional(size, annualized, hold, taker);
    YieldAgainstBar(annualized, PublishRate(cfg, rates, cand.buyLeg.venue, cand.sellLeg.venue), hold, taker,
                    CarryBar(cfg));
    var bd := CarryBreakdown(cfg, rates, cand);
    assert bd.netProfitUsd == (annualized * hold - taker) * size;
    BarsPerNotional(cfg, bd.netProfitUsd, annualized * hold - taker);
  }

  lemma CarryFigures(cfg: ScannerConfig, rates: map<string, real>, cand: Candidate, annualized: real)
    requires IsCarry(cand, annualized)
    ensures var bd := CarryBreakdown(cfg, rates, cand);
      && bd.netProfitUsd == cfg.fundingPositionSizeUsd * annualized * HoldFraction(cfg)
           - cfg.fundingPositionSizeUsd * RoundTripTaker(rates, cand.buyLeg.venue, cand.sellLeg.venue)
      && bd.roiPct == CarryRoiPct(cfg, bd.netProfitUsd)
  {
    hide HoldFraction, RoundTripTaker, CarryRoiPct;
  }

  lemma PerNotional(size: real, annualized: real, hold: real, taker: real)
    ensures size * annualized * hold - size * taker == (annualized * hold - taker) * size
  {
  }

  lemma PublishRateSolves(cfg: ScannerConfig, rates: map<string, real>, buyVenue: string, sellVenue: string)
    requires HoldFraction(cfg) > 0.0 && cfg.fundingPositionSizeUsd > 0.0
    ensures PublishRate(cfg, rates, buyVenue, sellVenue) * HoldFraction(cfg)
            == CarryBar(cfg) + RoundTripTaker(rates, buyVenue, sellVenue)
  {
    hide HoldFraction, RoundTripTaker, CarryBar;
    DividesBack(CarryBar(cfg) + RoundTripTaker(rates, buyVenue, sellVenue), HoldFraction(cfg));
  }

  lemma DividesBack(a: real, b: real)
    requires b != 0.0
    ensures a / b * b == a
  {
  }

  lemma YieldAgainstBar(annualized: real, rate: real, hold: real, taker: real, bar: real)
    requires hold > 0.0 && rate * hold == bar + taker
    ensures annualized * hold - taker >= bar <==> annualized >= rate
    ensures annualized * hold - taker > bar <==> annualized > rate
  {
    assert (annualized - rate) * hold == annualized * hold - taker - bar;
    SignKept(annualized - rate, hold);
  }

  /** Both bars and the sign of the profit, as one test on the return per notional. */
  lemma BarsPerNotional(cfg: ScannerConfig, net: real, margin: real)
    requires cfg.InRange() && cfg.fundingPositionSizeUsd > 0.0 && net == margin * cfg.fundingPositionSizeUsd
    ensures CarryBar(cfg) >= 0.0
    ensures (net > 0.0 && net >= cfg.minNetProfitUsd && CarryRoiPct(cfg, net) >= cfg.minRoiPct)
            <==> margin >= CarryBar(cfg) && margin > 0.0
  {
    var size, m := cfg.fundingPositionSizeUsd, cfg.minNetProfitUsd / cfg.fundingPositionSizeUsd;
    assert m * size == cfg.minNetProfitUsd;
    SignKept(m, size);
    SignKept(margin, size);
    SignKept(margin - m, size);
    assert (margin - m) * size == net - cfg.minNetProfitUsd;
    ReturnOnBothLegs(net, margin, size);
  }

  lemma ReturnOnBothLegs(net: real, margin: real, size: real)
    requires size > 0.0 && net == margin * size
    ensures net / (size * 2.0) * 100.0 == margin * 50.0
  {
    var x := net / (size * 2.0);
    assert x * (size * 2.0) == net;
    assert (x * 2.0 - margin) * size == 0.0;
    ZeroProduct(x * 2.0 - margin, size);
  }

  /** What a published carry says: its funding over the hold, one round trip of both venues' fees, nothing else; the
      return on both legs' margin; and the one size it is meant for. */
  lemma PublishedCarryMeans(cfg: ScannerConfig, env: Environment, cand: Candidate, annualized: real,
                            ageSec: Option<real>)
    requires IsCarry(cand, annualized) && cfg.fundingPositionSizeUsd > 0.0
    requires AssembleFunding(cfg, env, cand, ageSec).Published?
    ensures cand.buyLeg.venue in env.takerRates && cand.sellLeg.venue in env.takerRates && ageSec.Some?
    ensures var result, size := AssembleFunding(cfg, env, cand, ageSec), cfg.fundingPositionSizeUsd;
      var bd, sizing := result.breakdown, result.sizing;
      && bd.sizeUsd == size && bd.grossProfitUsd == size * annualized * (cfg.fundingHoldHours / 8760.0)
      && bd.tradingFeesUsd == size * (env.takerRates[cand.buyLeg.venue] + env.takerRates[cand.sellLeg.venue])
      && bd.withdrawalFeesUsd == bd.gasFeesUsd == bd.bridgeFeesUsd == bd.slippageCostUsd == bd.conversionCostUsd == 0.0
      && bd.netProfitUsd == bd.grossProfitUsd - bd.tradingFeesUsd
      && bd.roiPct == bd.netProfitUsd / (size * 2.0) * 100.0 && bd.netProfitPct == bd.roiPct
      && bd.grossSpreadPct == annualized * 100.0
      && sizing.recommendedSizeUsd == sizing.maxRecommendedPositionUsd == size
      && sizing.maxCapitalUtilizationUsd == sizing.liquiditySaturationUsd == size * 2.0
      && sizing.profitDecay == [(100.0, bd.roiPct)]
  {
    hide Validate;
  }

  /** And how one is turned away: without both rates and both snapshots as stale; without a profit as unprofitable. */
  lemma CarryRejections(cfg: ScannerConfig, env: Environment, cand: Candidate, ageSec: Option<real>)
    ensures cand.buyLeg.venue !in env.takerRates || cand.sellLeg.venue !in env.takerRates || ageSec.None?
            ==> AssembleFunding(cfg, env, cand, ageSec) == Rejected(STALE_DATA)
    ensures cand.buyLeg.venue in env.takerRates && cand.sellLeg.venue in env.takerRates && ageSec.Some?
            && CarryBreakdown(cfg, env.takerRates, cand).netProfitUsd <= 0.0
            ==> AssembleFunding(cfg, env, cand, ageSec) == Rejected(UNPROFITABLE_AFTER_FEES)
  {
    hide Validate;
  }

  /** When the threshold can cost nothing: the noise floor is no higher than the rate that publishes, or no
      carry can be published at any rate, the position being too small or every rate that clears the bars
      implausible. */
  predicate ThresholdIsHarmless(cfg: ScannerConfig, rates: map<string, real>, buyVenue: string, sellVenue: string)
    requires HoldFraction(cfg) > 0.0 && cfg.fundingPositionSizeUsd > 0.0
  {
    var rate := PublishRate(cfg, rates, buyVenue, sellVenue);
    || cfg.fundingMinAnnualizedSpread <= rate
    || cfg.fundingPositionSizeUsd < cfg.minTradeableSizeUsd
    || cfg.implausibleSpreadPct < rate * 100.0
    || (CarryBar(cfg) == 0.0 && cfg.implausibleSpreadPct == rate * 100.0)
  }

  /** Every carry between these venues that the threshold drops would have been rejected downstream,
      whatever its scores, statuses and age. */
  ghost predicate DropsOnlyRejects(cfg: ScannerConfig, rates: map<string, real>, buyVenue: string, sellVenue: string) {
    forall env: Environment, cand: Candidate, annualized: real, ageSec: Option<real> ::
      IsCarry(cand, annualized) && DroppedCarry(cfg, rates, buyVenue, sellVenue, cand, annualized)
      && env.takerRates == rates
      ==> AssembleFunding(cfg, env, cand, ageSec).Rejected?
  }

  predicate DroppedCarry(cfg: ScannerConfig, rates: map<string, real>, buyVenue: string, sellVenue: string,
                         cand: Candidate, annualized: real) {
    cand.buyLeg.venue == buyVenue && cand.sellLeg.venue == sellVenue
    && annualized < FundingThreshold(cfg, rates, buyVenue, sellVenue)
  }

  lemma FundingPruneIsLosslessIff(cfg: ScannerConfig, rates: map<string, real>, buyVenue: string, sellVenue: string)
    requires cfg.InRange() && cfg.maxGasPctOfGross >= 0.0
    requires HoldFraction(cfg) > 0.0 && cfg.fundingPositionSizeUsd > 0.0
    requires buyVenue in rates && sellVenue in rates
    ensures DropsOnlyRejects(cfg, rates, buyVenue, sellVenue)
            <==> ThresholdIsHarmless(cfg, rates, buyVenue, sellVenue)
  {
    hide HoldFraction, RoundTripTaker, PublishRate, CarryBar, AssembleFunding, FundingThreshold;
    ThresholdAgainstRate(cfg, rates, buyVenue, sellVenue);
    if ThresholdIsHarmless(cfg, rates, buyVenue, sellVenue) {
      forall env: Environment, cand: Candidate, annualized: real, ageSec: Option<real> |
        IsCarry(cand, annualized) && DroppedCarry(cfg, rates, buyVenue, sellVenue, cand, annualized)
        && env.takerRates == rates
        ensures AssembleFunding(cfg, env, cand, ageSec).Rejected?
      {
        CarryPublishesIff(cfg, env, cand, annualized, ageSec);
      }
    } else {
      LostCarry(cfg, rates, buyVenue, sellVenue);
    }
  }

  lemma ThresholdAgainstRate(cfg: ScannerConfig, rates: map<string, real>, buyVenue: string, sellVenue: string)
    requires HoldFraction(cfg) > 0.0 && cfg.fundingPositionSizeUsd > 0.0
    ensures var threshold, noise := FundingThreshold(cfg, rates, buyVenue, sellVenue), cfg.fundingMinAnnualizedSpread;
      noise <= threshold <= MaxReal(noise, PublishRate(cfg, rates, buyVenue, sellVenue))
  {
    hide HoldFraction, RoundTripTaker;
    SameDivisor(cfg.minNetProfitUsd / cfg.fundingPositionSizeUsd + RoundTripTaker(rates, buyVenue, sellVenue),
                CarryBar(cfg) + RoundTripTaker(rates, buyVenue, sellVenue), HoldFraction(cfg));
  }

  /** Otherwise a carry at the publishing rate, or just above it, is dropped and would have been published. */
  lemma LostCarry(cfg: ScannerConfig, rates: map<string, real>, buyVenue: string, sellVenue: string)
    requires cfg.InRange() && cfg.maxGasPctOfGross >= 0.0
    requires HoldFraction(cfg) > 0.0 && cfg.fundingPositionSizeUsd > 0.0
    requires buyVenue in rates && sellVenue in rates
    requires !ThresholdIsHarmless(cfg, rates, buyVenue, sellVenue)
    ensures !DropsOnlyRejects(cfg, rates, buyVenue, sellVenue)
  {
    hide HoldFraction, RoundTripTaker, PublishRate, CarryBar, AssembleFunding, FundingThreshold;
    ThresholdAgainstRate(cfg, rates, buyVenue, sellVenue);
    var rate := PublishRate(cfg, rates, buyVenue, sellVenue);
    var annualized := if CarryBar(cfg) != 0.0 then rate
                      else (rate + MinReal(cfg.fundingMinAnnualizedSpread, cfg.implausibleSpreadPct / 100.0)) / 2.0;
    var cand := Candidate(FUNDING, "COIN", "USDT", LegRef(buyVenue, CEX, 1.0, None, None),
                          LegRef(sellVenue, CEX, 1.0, None, None), annualized * 100.0, None, None, None, None,
                          Some(annualized), None);
    var env := Environment(rates, None, None, cfg.minLiquidityCexUsd, cfg.liquidityScoreFloor, cfg.confidenceThreshold,
                           ONLINE, ONLINE, 0.0, 0.0, true);
    CarryPublishesIff(cfg, env, cand, annualized, Some(0.0));
    assert AssembleFunding(cfg, env, cand, Some(0.0)).Published?;
    assert IsCarry(cand, annualized) && DroppedCarry(cfg, rates, buyVenue, sellVenue, cand, annualized);
  }

  /** The detector's breakeven knows only the dollar bar: it is the rate that publishes exactly when the
      return bar, on twice the notional, asks no more, and falls short of it otherwise. */
  lemma BreakevenIsPublishRateIff(cfg: ScannerConfig, rates: map<string, real>, buyVenue: string, sellVenue: string)
    requires HoldFraction(cfg) > 0.0 && cfg.fundingPositionSizeUsd > 0.0
    ensures Breakeven(cfg, rates, buyVenue, sellVenue) <= PublishRate(cfg, rates, buyVenue, sellVenue)
    ensures Breakeven(cfg, rates, buyVenue, sellVenue) == PublishRate(cfg, rates, buyVenue, sellVenue)
            <==> cfg.minRoiPct * 2.0 / 100.0 <= cfg.minNetProfitUsd / cfg.fundingPositionSizeUsd
  {
    hide HoldFraction, RoundTripTaker, CarryBar;
    var hold, taker := HoldFraction(cfg), RoundTripTaker(rates, buyVenue, sellVenue);
    var m, bar := cfg.minNetProfitUsd / cfg.fundingPositionSizeUsd, CarryBar(cfg);
    BarIsLarger(cfg);
    SameDivisor(m + taker, bar + taker, hold);
    DividesBack(m + taker, hold);
    DividesBack(bar + taker, hold);
  }

  lemma BarIsLarger(cfg: ScannerConfig)
    requires cfg.fundingPositionSizeUsd > 0.0
    ensures cfg.minNetProfitUsd / cfg.fundingPositionSizeUsd <= CarryBar(cfg)
    ensures cfg.minNetProfitUsd / cfg.fundingPositionSizeUsd == CarryBar(cfg)
            <==> cfg.minRoiPct * 2.0 / 100.0 <= cfg.minNetProfitUsd / cfg.fundingPositionSizeUsd
  {
  }
}
