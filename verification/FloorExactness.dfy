/** Exactly what the detectors' economic floor (src/scanner/detectors/base.py:125-153) may drop. */
module FloorExactness {
  import opened Prelude
  import opened Market
  import opened Config
  import opened Mathx
  import opened LiquidityLeg
  import opened ProfitEngine
  import opened Signals
  import opened Validator
  import opened Assembler
  import opened EconomicFloor
  import opened DeepTrades
  import opened DeepBooks
  import opened PreGateExactness

  // ── at one size ──

  /** A trade between these kinds of venue, of this size, whose tops are apart by less than the threshold. */
  ghost predicate DroppedTrade(fees: FeeInputs, bt: VenueType, st: VenueType, size: real, threshold: real,
                               buyLeg: Leg, sellLeg: Leg) {
    && SoundTrade(buyLeg, sellLeg) && TypeOf(buyLeg) == bt && TypeOf(sellLeg) == st
    && ComputeAtSize(size, buyLeg, sellLeg, fees).Some?
    && ComputeAtSize(size, buyLeg, sellLeg, fees).value.grossSpreadPct < threshold
  }

  /** Every such trade loses money or misses the return bar. */
  ghost predicate OnlyHopeless(cfg: ScannerConfig, fees: FeeInputs, bt: VenueType, st: VenueType, size: real,
                               threshold: real) {
    forall buyLeg: Leg, sellLeg: Leg :: DroppedTrade(fees, bt, st, size, threshold, buyLeg, sellLeg)
      ==> HopelessAt(cfg, ComputeAtSize(size, buyLeg, sellLeg, fees).value)
  }

  /** Ratio of two tops this far apart. */
  function RatioOfSpread(spreadPct: real): real {
    1.0 + spreadPct / 100.0
  }

  lemma DroppedIsHopeless(cfg: ScannerConfig, fees: FeeInputs, bt: VenueType, st: VenueType, size: real,
                          threshold: real, buyLeg: Leg, sellLeg: Leg)
    requires cfg.InRange() && fees.NonNegative() && DroppedTrade(fees, bt, st, size, threshold, buyLeg, sellLeg)
    requires size > 0.0
    requires MarginPct(fees, RatioOfSpread(threshold)) <= cfg.minRoiPct + fees.FixedUsd() / size * 100.0
    ensures HopelessAt(cfg, ComputeAtSize(size, buyLeg, sellLeg, fees).value)
  {
    hide ComputeAtSize, FillsAt, MarginPct, Leg.BestPrice, Leg.Sound, FeeInputs.FixedUsd, TopSpreadPct;
    ReturnByRatio(size, buyLeg, sellLeg, fees);
    SpreadOfBreakdown(size, buyLeg, sellLeg, fees);
    var f, b, s := FillsAt(size, buyLeg, sellLeg).value, buyLeg.BestPrice().value, sellLeg.BestPrice().value;
    RatioBelowTops(b, s, f.buyFill, f.sellFill, 1.0, 1.0);
    SpreadOfRatio(b, s);
    MarginOrder(fees, f.sellFill / f.buyFill, s / b);
    MarginOrder(fees, RatioOfSpread(threshold), s / b);
  }

  // ── a trade of any size, as near its tops as wanted ──

  lemma WholeTolerance(kept: real)
    requires kept < 1.0
    ensures kept < ToleranceCells(100.0)
  {
    hide Pow2;
    assert ToleranceCells(100.0) == Pow2(AMM_STEPS);
  }

  /** What a pool keeps in a trade that passes the ratio, even through two pools. */
  function KeptOf(tops: real, ratio: real): real
    requires tops > 0.0
  {
    1.0 - (1.0 - ratio / tops) / 4.0
  }

  lemma KeptOfWorks(tops: real, ratio: real)
    requires tops > 0.0 && 0.0 < ratio < tops
    ensures var kept := KeptOf(tops, ratio);
      0.0 < kept < 1.0 && ratio < tops * kept * kept && ratio < tops * kept
  {
    var x, kept := ratio / tops, KeptOf(tops, ratio);
    PartOfWhole(ratio, tops);
    assert x * tops == ratio;
    SignKept(x, tops);
    SquareGap(kept, x);
    LargerShare(kept * kept, x, tops);
    assert kept * kept * tops == tops * kept * kept;
    SignKept(tops, kept);
    LargerShare(1.0, kept, tops * kept);
  }

  lemma BookBookLegs(cfg: ScannerConfig, b: real, s: real, ratio: real, size: real)
    requires cfg.InRange() && b > 0.0 && s > 0.0 && size > 0.0 && 0.0 < ratio <= s / b
    ensures var buyLeg, sellLeg := CexBookLeg(AskBook(b, size), Buy), CexBookLeg(BidBook(s, size / b + size / s), Sell);
      Fetches(buyLeg, sellLeg, size, ratio) && buyLeg.BestPrice() == Some(b) && sellLeg.BestPrice() == Some(s)
  {
    hide FillsAt, Leg.BestPrice, Leg.FillPrice, Saturation, Leg.Sound;
    BookToBook(cfg, b, s, size, size);
    FetchesLess(CexBookLeg(AskBook(b, size), Buy), CexBookLeg(BidBook(s, size / b + size / s), Sell), size, s / b,
                ratio);
  }

  lemma BookPoolLegs(cfg: ScannerConfig, b: real, s: real, ratio: real, size: real) returns (sellLeg: Leg)
    requires cfg.InRange() && b > 0.0 && s > 0.0 && size > 0.0 && 0.0 < ratio < s / b
    ensures var buyLeg := CexBookLeg(AskBook(b, size), Buy);
      && sellLeg.DexPoolLeg? && Fetches(buyLeg, sellLeg, size, ratio)
      && buyLeg.BestPrice() == Some(b) && sellLeg.BestPrice() == Some(s)
  {
    hide FillsAt, Leg.BestPrice, Leg.FillPrice, Saturation, Leg.Sound, ToleranceCells, KeptOf;
    SignKept(s / b, b);
    KeptOfWorks(s / b, ratio);
    WholeTolerance(KeptOf(s / b, ratio));
    BookToPool(cfg.(maxSlippageDexPct := 100.0), b, s, ratio, size, KeptOf(s / b, ratio), size);
    sellLeg := SinkPool(b, s, ratio, size, KeptOf(s / b, ratio));
  }

  lemma LargeBuyPool(b: real, size: real, kept: real, impact: real) returns (buyLeg: Leg, fill: real)
    requires b > 0.0 && size > 0.0 && 0.0 < kept < 1.0 && impact > 0.0
    ensures buyLeg.DexPoolLeg? && buyLeg.side == Buy && buyLeg.Sound() && buyLeg.Usable()
    ensures buyLeg.BestPrice() == Some(b)
    ensures buyLeg.FillPrice(size) == Some(fill) && fill > 0.0 && Notional(fill, kept) <= Notional(b, 1.0 + impact)
    ensures 0.0 < size / fill <= size / b
  {
    var reserve := ReserveFor(kept, size, impact);
    buyLeg := BuyPool(reserve, b, kept);
    hide Leg.FillPrice, Leg.BestPrice, Leg.Sound, ReserveFor, BuyPool, Notional, AmmMaxSize;
    ReserveIsLarge(kept, size, impact);
    BuyPoolLeg(reserve, b, kept, 0.0);
    PoolBuyCosts(buyLeg, b, size, reserve, kept, impact);
    fill := buyLeg.FillPrice(size).value;
    BookTakesAll(b, kept, size, size, size / fill);
  }

  lemma PoolBookLegs(b: real, s: real, ratio: real, size: real) returns (buyLeg: Leg, sellLeg: Leg)
    requires b > 0.0 && s > 0.0 && size > 0.0 && 0.0 < ratio < s / b
    ensures buyLeg.DexPoolLeg? && sellLeg.CexBookLeg? && Fetches(buyLeg, sellLeg, size, ratio)
    ensures buyLeg.BestPrice() == Some(b) && sellLeg.BestPrice() == Some(s)
  {
    hide FillsAt, Leg.BestPrice, Leg.FillPrice, Leg.Sound, KeptOf, Notional;
    SignKept(s / b, b);
    KeptOfWorks(s / b, ratio);
    var kept := KeptOf(s / b, ratio);
    var impact := s / b * kept / ratio - 1.0;
    RoomForImpact(s / b * kept, ratio);
    var fill: real;
    buyLeg, fill := LargeBuyPool(b, size, kept, impact);
    sellLeg := CexBookLeg(BidBook(s, size / b), Sell);
    SignKept(size / b, b);
    BidLeg(s, size / b, 0.0);
    BidFill(s, size / b, size / fill);
    FillsFrom(buyLeg, sellLeg, size, fill, s, s);
    TargetCost(fill, b, s, ratio, kept, impact);
  }

  lemma PoolPoolLegs(cfg: ScannerConfig, b: real, s: real, ratio: real, size: real) returns (buyLeg: Leg, sellLeg: Leg)
    requires cfg.InRange() && b > 0.0 && s > 0.0 && size > 0.0 && 0.0 < ratio < s / b
    ensures buyLeg.DexPoolLeg? && sellLeg.DexPoolLeg? && Fetches(buyLeg, sellLeg, size, ratio)
    ensures buyLeg.BestPrice() == Some(b) && sellLeg.BestPrice() == Some(s)
  {
    hide FillsAt, Leg.BestPrice, Leg.FillPrice, Leg.Sound, KeptOf, Notional, SinkPool, ToleranceCells, Leg.MaxSizeUsd;
    SignKept(s / b, b);
    KeptOfWorks(s / b, ratio);
    var kept := KeptOf(s / b, ratio);
    WholeTolerance(kept);
    var impact, cost := HalfOfRoom(b, s, ratio, kept);
    var fill: real;
    buyLeg, fill := LargeBuyPool(b, size, kept, impact);
    FillBelowCost(fill, b, kept, impact, cost);
    PositiveNotional(size / b, cost);
    sellLeg := SinkPool(cost, s, ratio, Notional(size / b, cost), kept);
    BoughtAtCost(size / fill, size / b, cost);
    SinkPoolTakes(cfg.(maxSlippageDexPct := 100.0), cost, s, ratio, Notional(size / b, cost), kept,
                  Notional(size / fill, cost));
    FillsFrom(buyLeg, sellLeg, size, fill, s, sellLeg.FillPrice(Notional(size / fill, s)).value);
    CheaperTarget(fill, cost, ratio);
  }

  /** Half of the room between the ratio and what two pools leave goes to the buy pool's impact. */
  lemma HalfOfRoom(b: real, s: real, ratio: real, kept: real) returns (impact: real, cost: real)
    requires b > 0.0 && s > 0.0 && 0.0 < kept < 1.0 && 0.0 < ratio < s / b * kept * kept
    ensures impact > 0.0 && cost > 0.0 && cost == b * (1.0 + impact) / kept && ratio < s / cost * kept
  {
    var top := s / b * kept * kept;
    RoomForImpact(top, ratio);
    impact := (top / ratio - 1.0) / 2.0;
    cost := b * (1.0 + impact) / kept;
    CostScaled(b, s, kept, 1.0 + impact, cost);
    assert s / cost * kept * (1.0 + impact) == top by {
      assert s / cost * (1.0 + impact) * kept == s / b * kept * kept;
    }
    HalfRoom(top, ratio, impact, s / cost * kept);
  }

  lemma HalfRoom(top: real, ratio: real, impact: real, reached: real)
    requires 0.0 < ratio < top && impact == (top / ratio - 1.0) / 2.0 && impact > 0.0
    requires reached * (1.0 + impact) == top
    ensures ratio < reached
  {
    var x := top / ratio;
    assert x * ratio == top;
    assert (1.0 + impact) * ratio == (top + ratio) / 2.0;
    assert (reached - ratio) * (1.0 + impact) == top - (1.0 + impact) * ratio;
    SignKept(reached - ratio, 1.0 + impact);
  }

  lemma FillBelowCost(fill: real, b: real, kept: real, impact: real, cost: real)
    requires kept > 0.0 && cost == b * (1.0 + impact) / kept && Notional(fill, kept) <= Notional(b, 1.0 + impact)
    ensures fill <= cost
  {
    assert cost * kept == b * (1.0 + impact);
    SignKept(cost - fill, kept);
    assert (cost - fill) * kept == cost * kept - fill * kept;
  }

  /** Deep legs of the two kinds: at this size they fetch the ratio, however near it is to the tops. */
  lemma DeepLegs(cfg: ScannerConfig, bt: VenueType, st: VenueType, b: real, s: real, ratio: real, size: real)
    returns (buyLeg: Leg, sellLeg: Leg)
    requires cfg.InRange() && b > 0.0 && s > 0.0 && size > 0.0 && 0.0 < ratio < s / b
    ensures TypeOf(buyLeg) == bt && TypeOf(sellLeg) == st && Fetches(buyLeg, sellLeg, size, ratio)
    ensures buyLeg.BestPrice() == Some(b) && sellLeg.BestPrice() == Some(s)
  {
    hide Fetches, FillsAt, Leg.BestPrice, Leg.FillPrice;
    if bt == CEX && st == CEX {
      BookBookLegs(cfg, b, s, ratio, size);
      buyLeg, sellLeg := CexBookLeg(AskBook(b, size), Buy), CexBookLeg(BidBook(s, size / b + size / s), Sell);
    } else if bt == CEX {
      sellLeg := BookPoolLegs(cfg, b, s, ratio, size);
      buyLeg := CexBookLeg(AskBook(b, size), Buy);
    } else if st == CEX {
      buyLeg, sellLeg := PoolBookLegs(b, s, ratio, size);
    } else {
      buyLeg, sellLeg := PoolPoolLegs(cfg, b, s, ratio, size);
    }
  }

  /** What the floor drops at a size is hopeless, whatever the books, exactly when the margin at the floor's
      own spread is no more than the return bar plus what the fixed costs really come to at that size. */
  lemma OnlyHopelessIff(cfg: ScannerConfig, fees: FeeInputs, bt: VenueType, st: VenueType, size: real, threshold: real)
    requires cfg.InRange() && fees.NonNegative() && size > 0.0 && threshold >= 0.0
    ensures OnlyHopeless(cfg, fees, bt, st, size, threshold)
            <==> MarginPct(fees, RatioOfSpread(threshold)) <= cfg.minRoiPct + fees.FixedUsd() / size * 100.0
  {
    hide ComputeAtSize, MarginPct, FeeInputs.FixedUsd, HopelessAt, RatioOfSpread, Leg.Sound;
    if MarginPct(fees, RatioOfSpread(threshold)) <= cfg.minRoiPct + fees.FixedUsd() / size * 100.0 {
      forall buyLeg: Leg, sellLeg: Leg | DroppedTrade(fees, bt, st, size, threshold, buyLeg, sellLeg)
        ensures HopelessAt(cfg, ComputeAtSize(size, buyLeg, sellLeg, fees).value)
      {
        DroppedIsHopeless(cfg, fees, bt, st, size, threshold, buyLeg, sellLeg);
      }
    } else {
      LostAtSize(cfg, fees, bt, st, size, threshold);
    }
  }

  lemma LostAtSize(cfg: ScannerConfig, fees: FeeInputs, bt: VenueType, st: VenueType, size: real, threshold: real)
    requires cfg.InRange() && fees.NonNegative() && size > 0.0 && threshold >= 0.0
    requires MarginPct(fees, RatioOfSpread(threshold)) > cfg.minRoiPct + fees.FixedUsd() / size * 100.0
    ensures !OnlyHopeless(cfg, fees, bt, st, size, threshold)
  {
    hide ComputeAtSize, MarginPct, FeeInputs.FixedUsd, RatioOfSpread, FillsAt, Leg.BestPrice, Leg.Sound, TopSpreadPct;
    var fixedPct := fees.FixedUsd() / size * 100.0;
    FixedIsNotNegative(fees);
    FixedShare(fees.FixedUsd(), size);
    var ratio, tops := TwoBelow(cfg, fees, threshold, fixedPct);
    var buyLeg, sellLeg := DeepLegs(cfg, bt, st, 1.0, tops, ratio, size);
    BetterThanBar(cfg, fees, buyLeg, sellLeg, size, ratio, fixedPct);
    SpreadOfBreakdown(size, buyLeg, sellLeg, fees);
    assert DroppedTrade(fees, bt, st, size, threshold, buyLeg, sellLeg);
  }

  /** A ratio, and tops above it but closer than the threshold, that clear bar and fixed costs. */
  lemma TwoBelow(cfg: ScannerConfig, fees: FeeInputs, threshold: real, fixedPct: real) returns (ratio: real, tops: real)
    requires cfg.InRange() && fees.NonNegative() && fixedPct >= 0.0 && threshold >= 0.0
    requires MarginPct(fees, RatioOfSpread(threshold)) > cfg.minRoiPct + fixedPct
    ensures 0.0 < ratio < tops / 1.0 && TopSpreadPct(1.0, tops) < threshold
    ensures MarginPct(fees, ratio) > cfg.minRoiPct + fixedPct
  {
    var best := RatioOfSpread(threshold);
    var bar := cfg.(minRoiPct := cfg.minRoiPct + fixedPct);
    RatioBetweenWorks(bar, fees, best);
    ratio := RatioBetween(bar, fees, best);
    tops := (ratio + best) / 2.0;
  }

  lemma BetterThanBar(cfg: ScannerConfig, fees: FeeInputs, buyLeg: Leg, sellLeg: Leg, size: real, ratio: real,
                      fixedPct: real)
    requires cfg.InRange() && fees.NonNegative() && Fetches(buyLeg, sellLeg, size, ratio)
    requires fixedPct == fees.FixedUsd() / size * 100.0 && MarginPct(fees, ratio) > cfg.minRoiPct + fixedPct
    ensures ComputeAtSize(size, buyLeg, sellLeg, fees).Some?
    ensures !HopelessAt(cfg, ComputeAtSize(size, buyLeg, sellLeg, fees).value)
  {
    ComputedWhenFilled(size, buyLeg, sellLeg, fees);
    hide ComputeAtSize, FillsAt, MarginPct, Leg.BestPrice, Notional, Leg.Sound, FeeInputs.FixedUsd;
    ReturnByRatio(size, buyLeg, sellLeg, fees);
    var f, bd := FillsAt(size, buyLeg, sellLeg).value, ComputeAtSize(size, buyLeg, sellLeg, fees).value;
    AtLeastRatio(f.buyFill, f.sellFill, ratio);
    MarginOrder(fees, ratio, f.sellFill / f.buyFill);
    ReturnSign(size, bd.roiPct, bd.netProfitUsd);
  }

  // ── the floor itself ──

  /** What the floor takes for the fixed costs is covered, at this size, by what they really come to and by the
      part of the rates it charges twice: it takes the sell fee on the notional and on the bar as well. */
  predicate FloorIsSafeAt(cfg: ScannerConfig, fees: FeeInputs, estimateUsd: real, size: real)
    requires size > 0.0
  {
    AmortizedPct(cfg, estimateUsd) * (1.0 - OrZero(fees.sellFeeRate))
    <= fees.FixedUsd() / size * 100.0 + OrZero(fees.sellFeeRate) * (fees.RateFloorPct() + cfg.minRoiPct)
  }

  function FloorThreshold(cfg: ScannerConfig, rates: map<string, real>, cand: Candidate, estimateUsd: real): real {
    FloorPct(cfg, rates, cand.buyLeg.venue, cand.buyLeg.venueType, cand.sellLeg.venue, cand.sellLeg.venueType,
             cand.quote, estimateUsd) + cfg.minRoiPct
  }

  /** The exact condition, at each size: the detector's floor drops only trades that are hopeless, whatever the
      books and pools, exactly when its amortised estimate is safe there. */
  lemma FloorIsExactIff(cfg: ScannerConfig, rates: map<string, real>, env: Environment, cand: Candidate,
                        estimateUsd: real, size: real)
    requires cfg.InRange() && ResolveFees(cfg, env, cand).NonNegative() && size > 0.0 && estimateUsd >= 0.0
    requires SameRates(rates, env, cand.buyLeg) && SameRates(rates, env, cand.sellLeg)
    ensures OnlyHopeless(cfg, ResolveFees(cfg, env, cand), cand.buyLeg.venueType, cand.sellLeg.venueType, size,
                         FloorThreshold(cfg, rates, cand, estimateUsd))
            <==> FloorIsSafeAt(cfg, ResolveFees(cfg, env, cand), estimateUsd, size)
  {
    hide FloorThreshold, ResolveFees, AmortizedPct, FeeInputs.RateFloorPct, FeeInputs.FixedUsd, OnlyHopeless, MarginPct;
    hide FeeInputs.NonNegative, SameRates, RatioOfSpread;
    var fees := ResolveFees(cfg, env, cand);
    ThresholdOfFees(cfg, rates, env, cand, estimateUsd);
    ThresholdIsNotNegative(cfg, fees, estimateUsd);
    var threshold := FloorThreshold(cfg, rates, cand, estimateUsd);
    OnlyHopelessIff(cfg, fees, cand.buyLeg.venueType, cand.sellLeg.venueType, size, threshold);
    MarginAtThreshold(cfg, fees, estimateUsd, threshold);
  }

  lemma ThresholdOfFees(cfg: ScannerConfig, rates: map<string, real>, env: Environment, cand: Candidate,
                        estimateUsd: real)
    requires SameRates(rates, env, cand.buyLeg) && SameRates(rates, env, cand.sellLeg)
    ensures FloorThreshold(cfg, rates, cand, estimateUsd)
            == ResolveFees(cfg, env, cand).RateFloorPct() + AmortizedPct(cfg, estimateUsd) + cfg.minRoiPct
    ensures !CandidateClears(cfg, rates, cand, estimateUsd)
            <==> cfg.economicFloorEnabled && cand.grossSpreadPct < FloorThreshold(cfg, rates, cand, estimateUsd)
  {
    FloorMatchesFees(cfg, rates, env, cand, estimateUsd);
  }

  lemma ThresholdIsNotNegative(cfg: ScannerConfig, fees: FeeInputs, estimateUsd: real)
    requires cfg.InRange() && fees.NonNegative() && estimateUsd >= 0.0
    ensures fees.RateFloorPct() + AmortizedPct(cfg, estimateUsd) + cfg.minRoiPct >= 0.0
  {
    if cfg.costAmortizationUsd > 0.0 {
      SignKept(estimateUsd / cfg.costAmortizationUsd, cfg.costAmortizationUsd);
    }
  }

  lemma MarginAtThreshold(cfg: ScannerConfig, fees: FeeInputs, estimateUsd: real, threshold: real)
    requires threshold == fees.RateFloorPct() + AmortizedPct(cfg, estimateUsd) + cfg.minRoiPct
    ensures MarginPct(fees, RatioOfSpread(threshold)) - cfg.minRoiPct
            == AmortizedPct(cfg, estimateUsd) * (1.0 - OrZero(fees.sellFeeRate))
               - OrZero(fees.sellFeeRate) * (fees.RateFloorPct() + cfg.minRoiPct)
  {
    hide AmortizedPct;
  }

  lemma FloorIsSafeBelow(cfg: ScannerConfig, fees: FeeInputs, estimateUsd: real, size: real, larger: real)
    requires 0.0 < size <= larger && fees.FixedUsd() >= 0.0 && FloorIsSafeAt(cfg, fees, estimateUsd, larger)
    ensures FloorIsSafeAt(cfg, fees, estimateUsd, size)
  {
    hide AmortizedPct, FeeInputs.FixedUsd, FeeInputs.RateFloorPct;
    CostsLessWhenLarger(fees.FixedUsd(), size, larger);
  }

  lemma CostsLessWhenLarger(fixed: real, size: real, larger: real)
    requires 0.0 < size <= larger && fixed >= 0.0
    ensures fixed / larger * 100.0 <= fixed / size * 100.0
  {
    NonNegativeProduct(fixed, larger - size);
    RatioOrder(fixed, larger, fixed, size);
  }

  /** A candidate the floor drops is rejected downstream as well, if the estimate is safe at the largest size
      tried (or a required fee has no quote, which alone rejects) and the candidate's spread covers the books'. */
  lemma DetectorFloorIsLossless(cfg: ScannerConfig, rates: map<string, real>, env: Environment, cand: Candidate,
                                estimateUsd: real, buyBook: Option<OrderBook>, sellBook: Option<OrderBook>)
    requires cfg.InRange() && ResolveFees(cfg, env, cand).NonNegative()
    requires SameRates(rates, env, cand.buyLeg) && SameRates(rates, env, cand.sellLeg)
    requires BooksUsable(cand, buyBook, sellBook)
    requires buyBook.Some? && sellBook.Some? ==>
      SpreadCovers(cand, buyBook.value, sellBook.value)
      && SafeAtSaturation(cfg, env, cand, estimateUsd, buyBook.value, sellBook.value)
    requires !CandidateClears(cfg, rates, cand, estimateUsd)
    ensures FullPipeline(cfg, env, cand, buyBook, sellBook).Rejected?
  {
    hide Optimize, Validate, CandidateClears;
    if buyBook.Some? && sellBook.Some? {
      DroppedBooksAreRejected(cfg, rates, env, cand, estimateUsd, buyBook.value, sellBook.value);
    }
  }

  predicate SafeAtSaturation(cfg: ScannerConfig, env: Environment, cand: Candidate, estimateUsd: real,
                             buyBook: OrderBook, sellBook: OrderBook) {
    var sat := Saturation(cfg, BuyLegOf(cand, buyBook), SellLegOf(cand, sellBook),
                          cand.buyLeg.venueType, cand.sellLeg.venueType);
    sat <= 0.0 || !FeesKnown(env, cand) || FloorIsSafeAt(cfg, ResolveFees(cfg, env, cand), estimateUsd, sat)
  }

  lemma DroppedBooksAreRejected(cfg: ScannerConfig, rates: map<string, real>, env: Environment, cand: Candidate,
                                estimateUsd: real, buyBook: OrderBook, sellBook: OrderBook)
    requires cfg.InRange() && ResolveFees(cfg, env, cand).NonNegative()
    requires SameRates(rates, env, cand.buyLeg) && SameRates(rates, env, cand.sellLeg)
    requires BooksUsable(cand, Some(buyBook), Some(sellBook)) && SpreadCovers(cand, buyBook, sellBook)
    requires SafeAtSaturation(cfg, env, cand, estimateUsd, buyBook, sellBook)
    requires !CandidateClears(cfg, rates, cand, estimateUsd)
    ensures FullPipeline(cfg, env, cand, Some(buyBook), Some(sellBook)).Rejected?
  {
    hide ComputeAtSize, Saturation, Optimize, ResolveFees, FeeInputs.NonNegative, AmortizedPct, FloorPct, Leg.Sound;
    hide FeeInputs.FixedUsd, FeeInputs.RateFloorPct, FloorIsSafeAt, MarginPct, FullPipeline, Leg.BestPrice, FeesKnown;
    var buyLeg, sellLeg, fees := BuyLegOf(cand, buyBook), SellLegOf(cand, sellBook), ResolveFees(cfg, env, cand);
    ResolvedMeansKnown(cfg, env, cand);
    if FeesKnown(env, cand) {
      var sat := Saturation(cfg, buyLeg, sellLeg, cand.buyLeg.venueType, cand.sellLeg.venueType);
      forall size | 0.0 < size <= sat && ComputeAtSize(size, buyLeg, sellLeg, fees).Some?
        ensures HopelessAt(cfg, ComputeAtSize(size, buyLeg, sellLeg, fees).value)
      {
        HopelessBelow(cfg, rates, env, cand, estimateUsd, buyLeg, sellLeg, size, sat);
      }
      HopelessIsRejected(cfg, env, cand, buyBook, sellBook);
    } else {
      UnresolvedIsRejected(cfg, env, cand, buyBook, sellBook);
    }
  }

  lemma HopelessBelow(cfg: ScannerConfig, rates: map<string, real>, env: Environment, cand: Candidate,
                      estimateUsd: real, buyLeg: Leg, sellLeg: Leg, size: real, sat: real)
    requires cfg.InRange() && ResolveFees(cfg, env, cand).NonNegative() && SoundTrade(buyLeg, sellLeg)
    requires SameRates(rates, env, cand.buyLeg) && SameRates(rates, env, cand.sellLeg) && 0.0 < size <= sat
    requires buyLeg.BestPrice().Some? && sellLeg.BestPrice().Some?
    requires TopSpreadPct(buyLeg.BestPrice().value, sellLeg.BestPrice().value) <= cand.grossSpreadPct
    requires FloorIsSafeAt(cfg, ResolveFees(cfg, env, cand), estimateUsd, sat)
    requires !CandidateClears(cfg, rates, cand, estimateUsd)
    requires ComputeAtSize(size, buyLeg, sellLeg, ResolveFees(cfg, env, cand)).Some?
    ensures HopelessAt(cfg, ComputeAtSize(size, buyLeg, sellLeg, ResolveFees(cfg, env, cand)).value)
  {
    hide ComputeAtSize, ResolveFees, FeeInputs.NonNegative, AmortizedPct, FloorPct, Leg.Sound, FeeInputs.FixedUsd;
    hide FeeInputs.RateFloorPct, MarginPct, Leg.BestPrice, TopSpreadPct, RatioOfSpread, HopelessAt, SameRates;
    hide CandidateClears, FloorThreshold;
    var fees := ResolveFees(cfg, env, cand);
    var threshold := FloorThreshold(cfg, rates, cand, estimateUsd);
    ThresholdOfFees(cfg, rates, env, cand, estimateUsd);
    FixedIsNotNegative(fees);
    SpreadOfBreakdown(size, buyLeg, sellLeg, fees);
    FloorIsSafeBelow(cfg, fees, estimateUsd, size, sat);
    MarginAtThreshold(cfg, fees, estimateUsd, threshold);
    DroppedIsHopeless(cfg, fees, TypeOf(buyLeg), TypeOf(sellLeg), size, threshold, buyLeg, sellLeg);
  }

  /** The estimate is safe wherever it is no more than the true costs and the size is within the notional. */
  lemma EstimateBelowCostIsSafe(cfg: ScannerConfig, fees: FeeInputs, estimateUsd: real, size: real)
    requires cfg.InRange() && fees.NonNegative() && 0.0 <= estimateUsd <= fees.FixedUsd() && size > 0.0
    requires estimateUsd > 0.0 && cfg.costAmortizationUsd > 0.0 ==> size <= cfg.costAmortizationUsd
    ensures FloorIsSafeAt(cfg, fees, estimateUsd, size)
  {
    AmortizedIsBelowTrueCost(cfg, estimateUsd, fees.FixedUsd(), size);
    ThresholdIsNotNegative(cfg, fees, 0.0);
    hide AmortizedPct, FeeInputs.FixedUsd, FeeInputs.RateFloorPct;
    FixedShare(fees.FixedUsd(), size);
    PartOfCost(AmortizedPct(cfg, estimateUsd), OrZero(fees.sellFeeRate), fees.FixedUsd() / size * 100.0,
               fees.RateFloorPct() + cfg.minRoiPct);
  }

  lemma PartOfCost(a: real, sf: real, x: real, r: real)
    requires a <= x && x >= 0.0 && 0.0 <= sf < 1.0 && r >= 0.0
    ensures a * (1.0 - sf) <= x + sf * r
  {
    NonNegativeProduct(x - a, 1.0 - sf);
    NonNegativeProduct(sf, r);
    NonNegativeProduct(x, sf);
    assert (x - a) * (1.0 - sf) == x - x * sf - a * (1.0 - sf);
  }

  /** In a sale to a pool, which charges no rate, the estimate is safe exactly when it comes to no more of the
      notional than the true costs come to of the size. */
  lemma PoolSaleIsSafeIff(cfg: ScannerConfig, fees: FeeInputs, estimateUsd: real, size: real)
    requires OrZero(fees.sellFeeRate) == 0.0 && estimateUsd > 0.0 && cfg.costAmortizationUsd > 0.0 && size > 0.0
    ensures FloorIsSafeAt(cfg, fees, estimateUsd, size)
            <==> estimateUsd / cfg.costAmortizationUsd <= fees.FixedUsd() / size
  {
    hide FeeInputs.FixedUsd, FeeInputs.RateFloorPct;
  }

  // ── what the floor loses ──

  predicate ClearsBy(cfg: ScannerConfig, fees: FeeInputs, ratio: real, size: real)
    requires size > 0.0
  {
    var roi := MarginPct(fees, ratio) - fees.FixedUsd() / size * 100.0;
    roi > 0.0 && roi >= cfg.minRoiPct && Notional(size, roi) >= Notional(100.0, cfg.minNetProfitUsd)
  }

  lemma ClearsWhenFetched(cfg: ScannerConfig, buyLeg: Leg, sellLeg: Leg, fees: FeeInputs, size: real, ratio: real)
    requires Fetches(buyLeg, sellLeg, size, ratio) && fees.NonNegative() && size > 0.0
    requires ClearsBy(cfg, fees, ratio, size)
    ensures ComputeAtSize(size, buyLeg, sellLeg, fees).Some?
    ensures var bd := ComputeAtSize(size, buyLeg, sellLeg, fees).value;
      ClearsGateOne(cfg, bd) && bd.netProfitUsd > 0.0
  {
    ComputedWhenFilled(size, buyLeg, sellLeg, fees);
    hide ComputeAtSize, FillsAt, MarginPct, Leg.BestPrice, Leg.Sound, FeeInputs.FixedUsd, Notional;
    ReturnByRatio(size, buyLeg, sellLeg, fees);
    var f, bd := FillsAt(size, buyLeg, sellLeg).value, ComputeAtSize(size, buyLeg, sellLeg, fees).value;
    AtLeastRatio(f.buyFill, f.sellFill, ratio);
    MarginOrder(fees, ratio, f.sellFill / f.buyFill);
    NotionalOrder(size, MarginPct(fees, ratio) - fees.FixedUsd() / size * 100.0, bd.roiPct);
    HundredTimes(cfg.minNetProfitUsd, bd.netProfitUsd);
    ReturnSign(size, bd.roiPct, bd.netProfitUsd);
  }

  lemma HundredTimes(x: real, y: real)
    ensures Notional(100.0, x) <= Notional(100.0, y) ==> x <= y
  {
  }

  /** Bought on an exchange at b up to an amount and sold to a deep pool at s: published whenever the whole amount
      clears both bars at some ratio below the tops, whatever the detector thought of the candidate. */
  lemma SaleToPoolPublishes(cfg: ScannerConfig, env: Environment, cand: Candidate, b: real, s: real, ratio: real,
                            amount: real) returns (sellBook: OrderBook)
    requires LegalRanges(cfg) && cfg.maxSlippageDexPct >= 1.0 && Permits(cfg, env) && FeesKnown(env, cand)
    requires cand.arbType == CEX_DEX && cand.buyLeg.venueType == CEX && cand.sellLeg.venueType == DEX
    requires ResolveFees(cfg, env, cand).NonNegative() && b > 0.0 && s > 0.0 && amount > 0.0 && 0.0 < ratio < s / b
    requires ClearsBy(cfg, ResolveFees(cfg, env, cand), ratio, amount)
    requires Notional(amount, SWEEP[0]) >= cfg.minTradeableSizeUsd && TopSpreadPct(b, s) <= cfg.implausibleSpreadPct
    requires OrZero(ResolveFees(cfg, env, cand).gasFeeUsd) * 100.0
             <= Notional(Notional(amount, SWEEP[0]), 1.0 - b / s) * cfg.maxGasPctOfGross
    ensures var buyBook := AskBook(b, amount);
      && BooksUsable(cand, Some(buyBook), Some(sellBook)) && BooksAt(cand, buyBook, sellBook, b, s)
      && Saturation(cfg, BuyLegOf(cand, buyBook), SellLegOf(cand, sellBook), CEX, DEX) == amount
      && FullPipeline(cfg, env, cand, Some(buyBook), Some(sellBook)).Published?
  {
    hide ComputeAtSize, FillsAt, Leg.BestPrice, Leg.Sound, Saturation, ResolveFees, FullPipeline, ToleranceCells;
    hide Permits, FeesKnown, FeeInputs.NonNegative, ClearsBy, Notional, AskBook, KeptOf, TopSpreadPct, Leg.FillPrice;
    var fees := ResolveFees(cfg, env, cand);
    SignKept(s / b, b);
    KeptOfWorks(s / b, ratio);
    var kept := KeptOf(s / b, ratio);
    WideTolerance(cfg.maxSlippageDexPct);
    SweepOrder(amount, 0);
    BookToPool(cfg, b, s, ratio, amount, kept, amount);
    var sellLeg := SinkPool(b, s, ratio, amount, kept);
    sellBook := sellLeg.book;
    var buyLeg := CexBookLeg(AskBook(b, amount), Buy);
    assert BuyLegOf(cand, AskBook(b, amount)) == buyLeg && SellLegOf(cand, sellBook) == sellLeg;
    ClearsWhenFetched(cfg, buyLeg, sellLeg, fees, amount, ratio);
    WholeAmount(amount);
    PublishesWhenSizeClears(cfg, env, cand, AskBook(b, amount), sellBook, 3);
  }

  lemma WholeAmount(amount: real)
    ensures Notional(amount, SWEEP[3]) == amount
  {
  }

  /** From one percent up the tolerance is no constraint on what a pool may keep. */
  lemma WideTolerance(tol: real)
    requires tol >= 1.0
    ensures ToleranceCells(tol) >= 1.0
  {
    Pow2Doubles(AMM_STEPS);
    var p := Pow2(AMM_STEPS);
    hide Pow2;
    NonNegativeProduct(tol / 100.0 - 0.01, p);
    assert (tol / 100.0 - 0.01) * p == tol / 100.0 * p - 0.01 * p;
  }

  lemma {:induction false} Pow2Doubles(n: nat)
    requires n >= 1
    ensures Pow2(n) >= 2.0 * n as real
  {
    if n > 1 {
      Pow2Doubles(n - 1);
    }
  }

  /** A route from exchange to pool, with the spread its quotes show. */
  function PoolRoute(spreadPct: real): Candidate {
    Candidate(CEX_DEX, "COIN", "USDT", LegRef("exchange", CEX, 1.0, None, None), LegRef("pool", DEX, 1.0, None, None),
              spreadPct, Some("eth"), None, None, None, None, None)
  }

  const EXCHANGE_RATES: map<string, real> := map["exchange" := 0.001]

  /** The estimate of one dollar is the true cost, but the trade is larger than the amortisation notional: the
      floor drops this candidate, and the pipeline would have published 1000 dollars of it. */
  lemma LargeTradeIsDropped(cfg: ScannerConfig, env: Environment) returns (sellBook: OrderBook)
    requires LegalRanges(cfg) && cfg.economicFloorEnabled && cfg.costAmortizationUsd == 1.0
    requires cfg.minRoiPct <= 40.0 && cfg.minNetProfitUsd <= 400.0 && cfg.minTradeableSizeUsd <= 250.0
    requires cfg.implausibleSpreadPct >= 50.0 && cfg.maxGasPctOfGross >= 2.0 && cfg.maxSlippageDexPct >= 1.0
    requires Permits(cfg, env) && env.takerRates == EXCHANGE_RATES
    requires env.gasQuote == Some(1.0) && env.withdrawalQuote == Some(0.0)
    ensures var cand, buyBook := PoolRoute(50.0), AskBook(1.0, 1000.0);
      && !CandidateClears(cfg, EXCHANGE_RATES, cand, 1.0) && ResolveFees(cfg, env, cand).FixedUsd() == 1.0
      && BooksUsable(cand, Some(buyBook), Some(sellBook)) && SpreadCovers(cand, buyBook, sellBook)
      && FullPipeline(cfg, env, cand, Some(buyBook), Some(sellBook)).Published?
  {
    var cand := PoolRoute(50.0);
    FeesOfRoute(cfg, env, cand);
    assert !CandidateClears(cfg, EXCHANGE_RATES, cand, 1.0);
    sellBook := SaleToPoolPublishes(cfg, env, cand, 1.0, 1.5, 1.45, 1000.0);
  }

  /** The trade is within the amortisation notional, but the estimate of one dollar is more than the gas, which
      is free: the floor drops this candidate, and the pipeline would have published it. */
  lemma OverestimateIsDropped(cfg: ScannerConfig, env: Environment) returns (sellBook: OrderBook)
    requires LegalRanges(cfg) && cfg.economicFloorEnabled && cfg.costAmortizationUsd == 1000.0
    requires cfg.minNetProfitUsd <= (cfg.minRoiPct + 0.03) * 10.0 && cfg.minTradeableSizeUsd <= 250.0
    requires cfg.implausibleSpreadPct >= cfg.minRoiPct + 0.15 && cfg.maxSlippageDexPct >= 1.0
    requires Permits(cfg, env) && env.takerRates == EXCHANGE_RATES
    requires env.gasQuote == Some(0.0) && env.withdrawalQuote == Some(0.0)
    ensures var cand, buyBook := PoolRoute(cfg.minRoiPct + 0.15), AskBook(1.0, 1000.0);
      && !CandidateClears(cfg, EXCHANGE_RATES, cand, 1.0) && ResolveFees(cfg, env, cand).FixedUsd() == 0.0
      && BooksUsable(cand, Some(buyBook), Some(sellBook)) && SpreadCovers(cand, buyBook, sellBook)
      && Saturation(cfg, BuyLegOf(cand, buyBook), SellLegOf(cand, sellBook), CEX, DEX) <= cfg.costAmortizationUsd
      && FullPipeline(cfg, env, cand, Some(buyBook), Some(sellBook)).Published?
  {
    var cand := PoolRoute(cfg.minRoiPct + 0.15);
    FeesOfRoute(cfg, env, cand);
    assert !CandidateClears(cfg, EXCHANGE_RATES, cand, 1.0);
    var s, ratio := 1.0 + (cfg.minRoiPct + 0.15) / 100.0, 1.0 + (cfg.minRoiPct + 0.13) / 100.0;
    SpreadOfTops(s);
    sellBook := SaleToPoolPublishes(cfg, env, cand, 1.0, s, ratio, 1000.0);
  }

  lemma SpreadOfTops(s: real)
    requires s >= 1.0
    ensures TopSpreadPct(1.0, s) == (s - 1.0) * 100.0 && s / 1.0 == s && 1.0 - 1.0 / s >= 0.0
  {
    PartOfTopsLeft(1.0, s);
  }

  lemma FeesOfRoute(cfg: ScannerConfig, env: Environment, cand: Candidate)
    requires cand == PoolRoute(cand.grossSpreadPct) && env.takerRates == EXCHANGE_RATES
    requires env.gasQuote.Some? && env.withdrawalQuote == Some(0.0)
    ensures FeesKnown(env, cand)
    ensures ResolveFees(cfg, env, cand)
            == FeeInputs(Some(0.001), Some(0.0), Some(0.0), env.gasQuote, None, 0.0, true, true, false)
  {
  }
}
