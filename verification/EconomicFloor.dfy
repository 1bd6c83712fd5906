/** The detectors' economic floor and funding breakeven (src/scanner/detectors/base.py:125-169)
    against what the assembler charges downstream. */
module EconomicFloor {
  import opened Prelude
  import opened Market
  import opened Config
  import opened Mathx
  import opened LiquidityLeg
  import opened ProfitEngine
  import opened Signals
  import opened Validator
  import opened Assembler

  function TakerRate(rates: map<string, real>, venue: string): real {
    if venue in rates then rates[venue] else 0.0
  }

  function FloorPct(cfg: ScannerConfig, rates: map<string, real>, buyVenue: string, buyType: VenueType,
                    sellVenue: string, sellType: VenueType, quote: string, fixedCostUsd: real): real
  {
    (if buyType != DEX then TakerRate(rates, buyVenue) * 100.0 else 0.0)
    + (if sellType != DEX then TakerRate(rates, sellVenue) * 100.0 else 0.0)
    + (if quote == "cross" then cfg.stablecoinCrossquoteBps / 100.0 else 0.0)
    + AmortizedPct(cfg, fixedCostUsd)
  }

  /** Fixed costs as a percentage of a reference notional meant to exceed any real size. */
  function AmortizedPct(cfg: ScannerConfig, fixedCostUsd: real): real {
    if fixedCostUsd > 0.0 && cfg.costAmortizationUsd > 0.0
    then fixedCostUsd / cfg.costAmortizationUsd * 100.0 else 0.0
  }

  predicate ClearsEconomicFloor(cfg: ScannerConfig, rates: map<string, real>, grossPct: real,
                                buyVenue: string, buyType: VenueType, sellVenue: string, sellType: VenueType,
                                quote: string, fixedCostUsd: real)
  {
    !cfg.economicFloorEnabled
    || grossPct >= FloorPct(cfg, rates, buyVenue, buyType, sellVenue, sellType, quote, fixedCostUsd) + cfg.minRoiPct
  }

  predicate CandidateClears(cfg: ScannerConfig, rates: map<string, real>, cand: Candidate, fixedCostUsd: real) {
    ClearsEconomicFloor(cfg, rates, cand.grossSpreadPct, cand.buyLeg.venue, cand.buyLeg.venueType,
                        cand.sellLeg.venue, cand.sellLeg.venueType, cand.quote, fixedCostUsd)
  }

  /** The detector's rate table lists exactly the exchanges' rates the assembler charges. */
  predicate SameRates(rates: map<string, real>, env: Environment, leg: LegRef) {
    leg.venueType == CEX ==>
      (leg.venue in rates <==> leg.venue in env.takerRates)
      && (leg.venue in rates ==> rates[leg.venue] == env.takerRates[leg.venue])
  }

  lemma FloorMatchesFees(cfg: ScannerConfig, rates: map<string, real>, env: Environment, cand: Candidate,
                         fixedCostUsd: real)
    requires SameRates(rates, env, cand.buyLeg) && SameRates(rates, env, cand.sellLeg)
    ensures FloorPct(cfg, rates, cand.buyLeg.venue, cand.buyLeg.venueType, cand.sellLeg.venue, cand.sellLeg.venueType,
                     cand.quote, fixedCostUsd)
            == ResolveFees(cfg, env, cand).RateFloorPct() + AmortizedPct(cfg, fixedCostUsd)
  {
  }

  lemma AmortizedIsBelowTrueCost(cfg: ScannerConfig, estimate: real, actual: real, size: real)
    requires 0.0 <= estimate <= actual && size > 0.0
    requires estimate > 0.0 && cfg.costAmortizationUsd > 0.0 ==> size <= cfg.costAmortizationUsd
    ensures AmortizedPct(cfg, estimate) <= actual / size * 100.0
  {
    SameDivisor(estimate, actual, size);
    SignKept(actual / size, size);
    if estimate > 0.0 && cfg.costAmortizationUsd > 0.0 {
      AmortizedTermIsLowerBoundIff(cfg, estimate, size);
    }
  }

  /** The amortised term undercuts the true percentage at a size exactly when the size does not
      exceed the amortisation notional: beyond it the floor overcharges and may drop a good candidate. */
  lemma AmortizedTermIsLowerBoundIff(cfg: ScannerConfig, estimate: real, size: real)
    requires estimate > 0.0 && cfg.costAmortizationUsd > 0.0 && size > 0.0
    ensures AmortizedPct(cfg, estimate) <= estimate / size * 100.0 <==> size <= cfg.costAmortizationUsd
  {
    var a := cfg.costAmortizationUsd;
    var x, y := estimate / a, estimate / size;
    assert x * a == estimate && y * size == estimate;
    SignKept(y, size);
    assert (y - x) * a == y * (a - size);
    SignKept(y - x, a);
    SignKept(a - size, y);
    assert (a - size) * y == y * (a - size);
  }

  lemma UnresolvedIsRejected(cfg: ScannerConfig, env: Environment, cand: Candidate, buyBook: OrderBook,
                             sellBook: OrderBook)
    requires BooksUsable(cand, Some(buyBook), Some(sellBook))
    requires !(ALL_CATEGORIES <= ResolveFees(cfg, env, cand).ResolvedCategories())
    ensures FullPipeline(cfg, env, cand, Some(buyBook), Some(sellBook)).Rejected?
  {
    hide ComputeAtSize, Saturation, Swept, Decay, Recommended, MaxRecommended;
    var buyLeg, sellLeg, fees := BuyLegOf(cand, buyBook), SellLegOf(cand, sellBook), ResolveFees(cfg, env, cand);
    var bt, st := cand.buyLeg.venueType, cand.sellLeg.venueType;
    var result := Optimize(cfg, buyLeg, sellLeg, fees, bt, st);
    if result.Some? {
      var sat := Saturation(cfg, buyLeg, sellLeg, bt, st);
      RecommendationIsComplete(cfg, buyLeg, sellLeg, fees, bt, st);
      var k :| 0 <= k < |SWEEP|
        && Some(result.value.0) == ComputeAtSize(Notional(sat, SWEEP[k]), buyLeg, sellLeg, fees);
      SpreadOfBreakdown(Notional(sat, SWEEP[k]), buyLeg, sellLeg, fees);
    }
  }

  // ── funding ──

  const HOURS_PER_YEAR := 8760.0

  function HoldFraction(cfg: ScannerConfig): real {
    cfg.fundingHoldHours / HOURS_PER_YEAR
  }

  function RoundTripTaker(rates: map<string, real>, buyVenue: string, sellVenue: string): real {
    TakerRate(rates, buyVenue) + TakerRate(rates, sellVenue)
  }

  /** Annualised differential below which the detector drops a funding candidate. */
  function FundingThreshold(cfg: ScannerConfig, rates: map<string, real>, buyVenue: string, sellVenue: string): real {
    if !cfg.economicFloorEnabled || HoldFraction(cfg) <= 0.0 || cfg.fundingPositionSizeUsd <= 0.0
    then cfg.fundingMinAnnualizedSpread
    else MaxReal(Breakeven(cfg, rates, buyVenue, sellVenue), cfg.fundingMinAnnualizedSpread)
  }

  function Breakeven(cfg: ScannerConfig, rates: map<string, real>, buyVenue: string, sellVenue: string): real
    requires HoldFraction(cfg) > 0.0 && cfg.fundingPositionSizeUsd > 0.0
  {
    (cfg.minNetProfitUsd / cfg.fundingPositionSizeUsd + RoundTripTaker(rates, buyVenue, sellVenue)) / HoldFraction(cfg)
  }

  /** A differential reaches the threshold exactly when it reaches the configured minimum and, with the floor on and a
      position and a hold to earn on, the breakeven. */
  lemma ReachesThresholdIff(cfg: ScannerConfig, rates: map<string, real>, buyVenue: string, sellVenue: string,
                            annualized: real)
    ensures annualized >= FundingThreshold(cfg, rates, buyVenue, sellVenue) <==>
      && annualized >= cfg.fundingMinAnnualizedSpread
      && (cfg.economicFloorEnabled && HoldFraction(cfg) > 0.0 && cfg.fundingPositionSizeUsd > 0.0 ==>
            annualized >= Breakeven(cfg, rates, buyVenue, sellVenue))
  {
    hide Breakeven, HoldFraction;
  }

  /** The assembler's projected carry: funding collected over the hold, minus one round trip of fees. */
  function FundingNetUsd(cfg: ScannerConfig, rates: map<string, real>, buyVenue: string, sellVenue: string,
                         annualized: real): real
  {
    cfg.fundingPositionSizeUsd * annualized * HoldFraction(cfg)
    - cfg.fundingPositionSizeUsd * RoundTripTaker(rates, buyVenue, sellVenue)
  }

  /** The breakeven is the dollar bar solved for the rate. */
  lemma BreakevenIsTheDollarBar(cfg: ScannerConfig, rates: map<string, real>, buyVenue: string, sellVenue: string,
                                annualized: real)
    requires HoldFraction(cfg) > 0.0 && cfg.fundingPositionSizeUsd > 0.0
    ensures FundingNetUsd(cfg, rates, buyVenue, sellVenue, annualized) >= cfg.minNetProfitUsd
            <==> annualized >= Breakeven(cfg, rates, buyVenue, sellVenue)
    ensures FundingNetUsd(cfg, rates, buyVenue, sellVenue, annualized) > cfg.minNetProfitUsd
            <==> annualized > Breakeven(cfg, rates, buyVenue, sellVenue)
  {
    var h, size, taker := HoldFraction(cfg), cfg.fundingPositionSizeUsd, RoundTripTaker(rates, buyVenue, sellVenue);
    var b := Breakeven(cfg, rates, buyVenue, sellVenue);
    var m := cfg.minNetProfitUsd / size;
    assert m * size == cfg.minNetProfitUsd && b * h == m + taker;
    var margin := (annualized - b) * h;
    assert margin * size == FundingNetUsd(cfg, rates, buyVenue, sellVenue, annualized) - cfg.minNetProfitUsd by {
      ScaleCarry(annualized, b, h, size, m, taker);
    }
    SignKept(margin, size);
    SignKept(annualized - b, h);
  }

  lemma ScaleCarry(a: real, b: real, h: real, size: real, m: real, taker: real)
    requires b * h == m + taker
    ensures (a - b) * h * size == size * a * h - size * taker - m * size
  {
    assert (a - b) * h * size == a * h * size - (b * h) * size;
    assert a * h * size == size * a * h;
  }
}
