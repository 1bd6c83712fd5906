/** Exactly when the cheap pre-gate (src/scanner/assembler.py:218-230) discards nothing: for given top prices,
    over every depth of book, every pool behind them and every environment. */
module PreGateExactness {
  import opened Prelude
  import opened Market
  import opened Config
  import opened Mathx
  import opened LiquidityLeg
  import opened ProfitEngine
  import opened Signals
  import opened Validator
  import opened Assembler
  import opened DeepTrades
  import opened DeepBooks

  // ── a trade as near the best ratio as wanted ──

  /** What a pool must keep for a ratio below the best with one pool in the trade. */
  function KeptFor(share: real, part: real): real {
    (share + part) / 2.0
  }

  lemma KeptForOnePool(cfg: ScannerConfig, tops: real, part: real)
    requires tops > 0.0 && 0.0 < part < PoolShare(cfg)
    ensures var kept := KeptFor(PoolShare(cfg), part);
      && 0.0 < part < kept < PoolShare(cfg) <= 1.0 && kept < ToleranceCells(cfg.maxSlippageDexPct)
      && tops * part < tops * kept
  {
    hide ToleranceCells;
    SignKept(KeptFor(PoolShare(cfg), part) - part, tops);
  }

  lemma PartOfTops(tops: real, ratio: real, share: real)
    requires tops > 0.0 && 0.0 < ratio < tops * share
    ensures 0.0 < ratio / tops < share && tops * (ratio / tops) == ratio
  {
    var part := ratio / tops;
    assert part * tops == ratio;
    SignKept(part, tops);
    assert (share - part) * tops == tops * share - ratio;
    SignKept(share - part, tops);
  }

  /** A deep trade between the two kinds of venue that fetches the ratio at its smallest swept size. */
  ghost predicate DeepTradeAt(cfg: ScannerConfig, buyBook: OrderBook, sellBook: OrderBook, bt: VenueType,
                              st: VenueType, b: real, s: real, amount: real, ratio: real) {
    var buyLeg, sellLeg := LegOf(buyBook, bt, Buy), LegOf(sellBook, st, Sell);
    && SoundTrade(buyLeg, sellLeg) && buyLeg.BestPrice() == Some(b) && sellLeg.BestPrice() == Some(s)
    && Saturation(cfg, buyLeg, sellLeg, bt, st) >= amount
    && Fetches(buyLeg, sellLeg, Notional(Saturation(cfg, buyLeg, sellLeg, bt, st), SWEEP[0]), ratio)
  }

  lemma DeepBooksTrade(cfg: ScannerConfig, b: real, s: real, amount: real)
    returns (buyBook: OrderBook, sellBook: OrderBook)
    requires cfg.InRange() && b > 0.0 && s > 0.0 && amount > 0.0
    ensures DeepTradeAt(cfg, buyBook, sellBook, CEX, CEX, b, s, amount, s / b)
  {
    hide Saturation, FillsAt, Notional, Leg.BestPrice, Leg.FillPrice, Fetches, AskBook, BidBook;
    SweepOrder(amount, 0);
    BookToBook(cfg, b, s, amount, Notional(amount, SWEEP[0]));
    buyBook, sellBook := AskBook(b, amount), BidBook(s, amount / b + amount / s);
  }

  lemma DeepSaleToPool(cfg: ScannerConfig, b: real, s: real, ratio: real, amount: real)
    returns (buyBook: OrderBook, sellBook: OrderBook)
    requires cfg.InRange() && b > 0.0 && s > 0.0 && amount > 0.0 && 0.0 < ratio < s / b * PoolShare(cfg)
    ensures DeepTradeAt(cfg, buyBook, sellBook, CEX, DEX, b, s, amount, ratio)
  {
    hide Saturation, FillsAt, Notional, Leg.BestPrice, Leg.FillPrice, Fetches, AskBook, PoolShare, ToleranceCells;
    SignKept(s / b, b);
    var kept := KeptAbove(cfg, s / b, ratio);
    SweepOrder(amount, 0);
    BookToPool(cfg, b, s, ratio, amount, kept, Notional(amount, SWEEP[0]));
    buyBook, sellBook := AskBook(b, amount), SinkPool(b, s, ratio, amount, kept).book;
  }

  /** Bought from a pool and sold on a book, tops up to four apart are approached; beyond, the ratio is 3.2 at least. */
  lemma DeepBuyFromPool(cfg: ScannerConfig, b: real, s: real, ratio: real, amount: real)
    returns (buyBook: OrderBook, sellBook: OrderBook)
    requires cfg.InRange() && cfg.maxSlippageDexPct <= 100.0 && b > 0.0 && s > 0.0 && amount > 0.0
    requires 0.0 < ratio < s / b * PoolShare(cfg)
    ensures DeepTradeAt(cfg, buyBook, sellBook, DEX, CEX, b, s, amount, MinReal(ratio, 3.2))
  {
    hide Saturation, FillsAt, Notional, Leg.BestPrice, Leg.FillPrice, Fetches, AskBook, BidBook, PoolShare;
    hide ToleranceCells, ReserveFor;
    var tops, bound := s / b, 4.0;
    SignKept(tops, b);
    if tops * PoolShare(cfg) <= bound {
      var kept := KeptAbove(cfg, tops, ratio);
      buyBook, sellBook := NearTops(cfg, b, s, ratio, amount, kept);
    } else {
      var kept := KeptAbove(cfg, tops, bound);
      buyBook, sellBook := FarTops(cfg, b, s, ratio, amount, kept, bound);
    }
  }

  /** With one pool, any bound below the tops less the share can still be passed. */
  lemma KeptAbove(cfg: ScannerConfig, tops: real, bound: real) returns (kept: real)
    requires tops > 0.0 && 0.0 < bound < tops * PoolShare(cfg)
    ensures 0.0 < kept < PoolShare(cfg) <= 1.0 && kept < ToleranceCells(cfg.maxSlippageDexPct)
    ensures tops * kept > bound && Notional(tops, kept) > bound
  {
    hide PoolShare, ToleranceCells, KeptFor;
    PartOfTops(tops, bound, PoolShare(cfg));
    KeptForOnePool(cfg, tops, bound / tops);
    kept := KeptFor(PoolShare(cfg), bound / tops);
  }

  lemma NearTops(cfg: ScannerConfig, b: real, s: real, ratio: real, amount: real, kept: real)
    returns (buyBook: OrderBook, sellBook: OrderBook)
    requires cfg.InRange() && b > 0.0 && s > 0.0 && amount > 0.0
    requires 0.0 < kept <= PoolShare(cfg) && kept < 1.0 && kept < ToleranceCells(cfg.maxSlippageDexPct)
    requires s / b * PoolShare(cfg) <= 4.0 && 0.0 < ratio < s / b * kept
    ensures DeepTradeAt(cfg, buyBook, sellBook, DEX, CEX, b, s, amount, MinReal(ratio, 3.2))
  {
    hide Saturation, FillsAt, Notional, Leg.BestPrice, Leg.FillPrice, Fetches, AskBook, PoolShare, ToleranceCells;
    hide ReserveFor;
    var tops := s / b;
    SignKept(tops, b);
    NonNegativeProduct(tops, PoolShare(cfg) - kept);
    PoolToBook(cfg, b, s, ratio, amount, kept);
    buyBook := BuyPool(ReserveFor(kept, amount, s / b * kept / ratio - 1.0), b, kept).book;
    sellBook := AskBook(s, amount);
    FetchesLess(LegOf(buyBook, DEX, Buy), LegOf(sellBook, CEX, Sell), Notional(amount, SWEEP[0]), ratio, 3.2);
  }

  lemma FarTops(cfg: ScannerConfig, b: real, s: real, ratio: real, amount: real, kept: real, far: real)
    returns (buyBook: OrderBook, sellBook: OrderBook)
    requires cfg.InRange() && cfg.maxSlippageDexPct <= 100.0 && b > 0.0 && s > 0.0 && amount > 0.0
    requires 0.0 < kept < 1.0 && kept < ToleranceCells(cfg.maxSlippageDexPct) && Notional(s / b, kept) > far == 4.0
    ensures DeepTradeAt(cfg, buyBook, sellBook, DEX, CEX, b, s, amount, MinReal(ratio, 3.2))
  {
    hide Saturation, FillsAt, Notional, Leg.BestPrice, Leg.FillPrice, Fetches, BidBook, ToleranceCells, ReserveFor;
    var sat := PoolToDeepBook(cfg, b, s, amount, kept, far);
    var reserve := ReserveFor(kept, amount, 1.0);
    buyBook, sellBook := BuyPool(reserve, b, kept).book, BidBook(s, reserve / b + reserve / s);
    FetchesLess(LegOf(buyBook, DEX, Buy), LegOf(sellBook, CEX, Sell), Notional(sat, SWEEP[0]), 3.2, ratio);
  }

  lemma FetchesLess(buyLeg: Leg, sellLeg: Leg, size: real, ratio: real, other: real)
    requires Fetches(buyLeg, sellLeg, size, ratio)
    ensures Fetches(buyLeg, sellLeg, size, MinReal(ratio, other))
    ensures Fetches(buyLeg, sellLeg, size, MinReal(other, ratio))
  {
    hide FillsAt, Leg.Sound;
    NotionalOrder(FillsAt(size, buyLeg, sellLeg).value.buyFill, MinReal(ratio, other), ratio);
    NotionalOrder(FillsAt(size, buyLeg, sellLeg).value.buyFill, MinReal(other, ratio), ratio);
  }

  lemma DeepPools(cfg: ScannerConfig, b: real, s: real, ratio: real, amount: real)
    returns (buyBook: OrderBook, sellBook: OrderBook)
    requires cfg.InRange() && b > 0.0 && s > 0.0 && amount > 0.0
    requires 0.0 < ratio < s / b * PoolShare(cfg) * Damped(PoolShare(cfg), LeastImpact(cfg))
    ensures DeepTradeAt(cfg, buyBook, sellBook, DEX, DEX, b, s, amount, ratio)
  {
    hide Saturation, FillsAt, Notional, Leg.BestPrice, Leg.FillPrice, Fetches, PoolShare, ToleranceCells, Damped;
    hide LeastImpact, KeepsFewest, ReserveFor;
    var kept := KeptForPools(cfg, s / b, ratio, b, s);
    var sellLeg, sat := PoolToPool(cfg, b, s, ratio, amount, kept);
    buyBook, sellBook := BuyPool(ReserveFor(kept, amount, 1.0), b, kept).book, sellLeg.book;
    assert sellLeg == DexPoolLeg(sellBook, Sell);
  }

  /** Two pools: keep so nearly the whole share that the limit has the fewest cells and the ratio is passed. */
  lemma KeptForPools(cfg: ScannerConfig, tops: real, ratio: real, b: real, s: real) returns (kept: real)
    requires cfg.InRange() && b > 0.0 && s > 0.0 && tops == s / b
    requires 0.0 < ratio < tops * PoolShare(cfg) * Damped(PoolShare(cfg), LeastImpact(cfg))
    ensures 0.0 < kept < 1.0 && kept < ToleranceCells(cfg.maxSlippageDexPct) && KeepsFewest(cfg, kept)
    ensures ratio < tops * kept * Damped(kept, LeastImpact(cfg))
  {
    var u, e := PoolShare(cfg), LeastImpact(cfg);
    hide ToleranceCells, LeastImpact, PoolShare, Damped, FewestCells, Pow2, KeepsFewest, FewestFloor, Cells;
    SignKept(tops, b);
    ImpactScale(cfg, FewestCells(cfg));
    ShareIsPositive(cfg, tops, ratio);
    var best := tops * u * Damped(u, e);
    PartOfBest(ratio, best);
    var eta := NearlyOne(cfg, ratio / best);
    kept := ScaledShare(eta, u);
    FewestAbove(cfg, eta, kept);
    NearlyAll(tops, u, e, eta, ratio / best, best);
  }

  lemma NearlyOne(cfg: ScannerConfig, reached: real) returns (eta: real)
    requires cfg.InRange() && 0.0 < reached < 1.0
    ensures 1.0 - (1.0 - reached) / 4.0 <= eta < 1.0 && eta > FewestFloor(cfg)
  {
    hide FewestFloor;
    FewestFloorIsPart(cfg);
    eta := MaxReal(1.0 - (1.0 - reached) / 4.0, (1.0 + FewestFloor(cfg)) / 2.0);
  }

  lemma PartOfBest(ratio: real, best: real)
    requires 0.0 < ratio < best
    ensures 0.0 < ratio / best < 1.0 && ratio / best * best == ratio
  {
    PartOfWhole(ratio, best);
    SignKept(ratio / best, best);
  }

  lemma ScaledShare(eta: real, u: real) returns (kept: real)
    requires 0.0 < eta < 1.0 && u > 0.0
    ensures kept == eta * u && 0.0 < kept < u
  {
    kept := eta * u;
    SignKept(u, eta);
    SignKept(1.0 - eta, u);
    assert (1.0 - eta) * u == u - kept;
  }

  lemma ShareIsPositive(cfg: ScannerConfig, tops: real, ratio: real)
    requires tops > 0.0 && 0.0 < ratio < tops * PoolShare(cfg) * Damped(PoolShare(cfg), LeastImpact(cfg))
    requires LeastImpact(cfg) >= 0.0 && cfg.InRange()
    ensures 0.0 < PoolShare(cfg) <= 1.0 && PoolShare(cfg) <= ToleranceCells(cfg.maxSlippageDexPct)
  {
    hide LeastImpact, Pow2, Damped;
    NonNegativeProduct(cfg.maxSlippageDexPct / 100.0, Pow2(AMM_STEPS));
    NonZeroFactor(tops, PoolShare(cfg), Damped(PoolShare(cfg), LeastImpact(cfg)));
  }

  lemma NonZeroFactor(tops: real, u: real, d: real)
    requires u >= 0.0 && tops * u * d > 0.0
    ensures u > 0.0
  {
    assert tops * u * d == u * (tops * d);
  }

  /** The part of the share above which the limit has the fewest cells. */
  function FewestFloor(cfg: ScannerConfig): real {
    if FewestCells(cfg) + 1 == Cells(AMM_STEPS) then 0.0
    else if ToleranceCells(cfg.maxSlippageDexPct) < 1.0 then 0.5
    else ToleranceCells(cfg.maxSlippageDexPct) / (FewestCells(cfg) + 1) as real
  }

  lemma FewestFloorIsPart(cfg: ScannerConfig)
    requires cfg.InRange()
    ensures 0.0 <= FewestFloor(cfg) < 1.0
  {
    hide Cells, ToleranceCells;
    var q := ToleranceCells(cfg.maxSlippageDexPct);
    if FewestCells(cfg) + 1 != Cells(AMM_STEPS) && q >= 1.0 {
      PartOfWhole(q, (FewestCells(cfg) + 1) as real);
    }
  }

  lemma PartOfWhole(q: real, n: real)
    requires 0.0 <= q < n
    ensures 0.0 <= q / n < 1.0
  {
    var x := q / n;
    assert x * n == q;
    SignKept(x, n);
    SignKept(1.0 - x, n);
    assert (1.0 - x) * n == n - q;
  }

  lemma FewestAbove(cfg: ScannerConfig, eta: real, kept: real)
    requires FewestFloor(cfg) < eta && 0.0 < PoolShare(cfg) && kept == eta * PoolShare(cfg)
    ensures KeepsFewest(cfg, kept)
  {
    hide Cells, ToleranceCells;
    var q, n := ToleranceCells(cfg.maxSlippageDexPct), (FewestCells(cfg) + 1) as real;
    if FewestCells(cfg) + 1 != Cells(AMM_STEPS) {
      if q < 1.0 {
        AboveHalf(q, eta, kept);
      } else {
        AbovePart(q, n, eta);
      }
    }
  }

  lemma AboveHalf(q: real, eta: real, kept: real)
    requires q > 0.0 && eta > 0.5 && kept == eta * q
    ensures 2.0 * kept > q
  {
    SignKept(eta - 0.5, q);
    assert (eta - 0.5) * q == eta * q - 0.5 * q;
  }

  lemma AbovePart(q: real, n: real, eta: real)
    requires n > 0.0 && eta > q / n
    ensures n * eta > q
  {
    var x := q / n;
    assert x * n == q;
    SignKept(eta - x, n);
    assert (eta - x) * n == eta * n - q;
  }

  lemma NearlyAll(tops: real, u: real, e: real, eta: real, reached: real, best: real)
    requires tops > 0.0 && u > 0.0 && e >= 0.0 && 0.0 < reached < 1.0
    requires 1.0 - (1.0 - reached) / 4.0 <= eta < 1.0 && best == tops * u * Damped(u, e) && best > 0.0
    ensures reached * best < tops * (eta * u) * Damped(eta * u, e)
  {
    var d, dd := Damped(u, e), Damped(eta * u, e);
    DampedShrinks(u, e, eta);
    hide Damped;
    var a := 1.0 - (1.0 - reached) / 4.0;
    SquareGap(a, reached);
    SquareOrder(eta, a);
    LargerShare(eta * eta, reached, best);
    EtaTwice(tops, u, eta, d, dd);
    var scaled := tops * (eta * u) * (eta * d);
    assert scaled == eta * eta * best;
    assert reached * best < scaled <= tops * (eta * u) * dd;
  }

  lemma LargerShare(x: real, y: real, best: real)
    requires x > y && best > 0.0
    ensures x * best > y * best
  {
    SignKept(x - y, best);
    assert (x - y) * best == x * best - y * best;
  }

  lemma SquareOrder(eta: real, a: real)
    requires eta >= a >= 0.0
    ensures eta * eta >= a * a
  {
  }

  lemma SquareGap(a: real, r: real)
    requires 0.0 < r < 1.0 && a == 1.0 - (1.0 - r) / 4.0
    ensures a * a > r
  {
    assert 16.0 * (a * a - r) == (1.0 - r) * (9.0 - r);
  }

  lemma EtaTwice(tops: real, u: real, eta: real, d: real, dd: real)
    requires tops > 0.0 && u > 0.0 && eta > 0.0 && dd >= eta * d
    ensures tops * (eta * u) * dd >= tops * (eta * u) * (eta * d)
  {
    SignKept(u, eta);
    SignKept(eta * u, tops);
    NonNegativeProduct(tops * (eta * u), dd - eta * d);
  }

  lemma DampedShrinks(u: real, e: real, eta: real)
    requires u > 0.0 && e >= 0.0 && 0.0 < eta < 1.0
    ensures Damped(eta * u, e) >= eta * Damped(u, e)
  {
    SignKept(u, eta);
    NonNegativeProduct(e, u);
    NonNegativeProduct(e, eta * u);
    var x, y, c, d := Damped(u, e), Damped(eta * u, e), 1.0 + e * u, 1.0 + e * (eta * u);
    assert x * c == u && y * d == eta * u;
    SignKept(x, c);
    NonNegativeProduct(e * u, 1.0 - eta);
    assert e * u * (1.0 - eta) == c - d;
    NonNegativeProduct(eta * x, c - d);
    assert (y - eta * x) * d == eta * x * (c - d);
    SignKept(y - eta * x, d);
  }

  // ── what can be published at given tops ──

  /** The ranges the configuration's validation enforces, as far as they matter here; a conversion costs
      no more than the notional it converts. */
  predicate LegalRanges(cfg: ScannerConfig) {
    && cfg.InRange() && cfg.minRoiPct <= 100.0 && cfg.maxSlippageDexPct <= 100.0 && cfg.maxGasPctOfGross >= 0.0
    && 0.0 <= cfg.stablecoinCrossquoteBps <= 10000.0
  }

  /** The friendliest surroundings: fresh data, good scores, venues online, and nothing to pay but rates. */
  function QuietEnvironment(cfg: ScannerConfig, rates: map<string, real>): Environment {
    Environment(rates, Some(0.0), Some(0.0), MaxReal(cfg.minLiquidityCexUsd, cfg.minLiquidityDexUsd),
                cfg.liquidityScoreFloor, cfg.confidenceThreshold, ONLINE, ONLINE, 0.0, 0.0, true)
  }

  function RouteFees(cfg: ScannerConfig, rates: map<string, real>, cand: Candidate): FeeInputs {
    ResolveFees(cfg, QuietEnvironment(cfg, rates), cand)
  }

  /** The margin that trades between these tops approach. */
  function BestMarginPct(cfg: ScannerConfig, rates: map<string, real>, cand: Candidate, b: real, s: real): real
    requires b > 0.0
  {
    MarginPct(RouteFees(cfg, rates, cand), BestRatio(cfg, cand.buyLeg.venueType, cand.sellLeg.venueType, s / b))
  }

  /** Two books and no bridge fee: the best margin is reached, and not just approached. */
  predicate BestIsReached(cfg: ScannerConfig, rates: map<string, real>, cand: Candidate) {
    cand.buyLeg.venueType == CEX && cand.sellLeg.venueType == CEX && RouteFees(cfg, rates, cand).FixedUsd() == 0.0
  }

  /** Known before any book is fetched: the route's fees are known, its bridge is in time, its tops are
      plausible, and its best margin is a profit that meets the return bar. */
  predicate Publishable(cfg: ScannerConfig, rates: map<string, real>, cand: Candidate, b: real, s: real)
    requires b > 0.0
  {
    var margin := BestMarginPct(cfg, rates, cand, b, s);
    && FeesKnown(QuietEnvironment(cfg, rates), cand) && BridgeInTime(cfg, cand)
    && TopSpreadPct(b, s) <= cfg.implausibleSpreadPct
    && margin > 0.0 && (margin > cfg.minRoiPct || (BestIsReached(cfg, rates, cand) && margin == cfg.minRoiPct))
  }

  /** Books of any depth, or pools of any reserves and fee, with these tops. */
  ghost predicate BooksAt(cand: Candidate, buyBook: OrderBook, sellBook: OrderBook, b: real, s: real) {
    var buyLeg, sellLeg := BuyLegOf(cand, buyBook), SellLegOf(cand, sellBook);
    SoundTrade(buyLeg, sellLeg) && buyLeg.BestPrice() == Some(b) && sellLeg.BestPrice() == Some(s)
  }

  lemma MarginOfRates(cfg: ScannerConfig, env: Environment, cand: Candidate, ratio: real)
    ensures MarginPct(ResolveFees(cfg, env, cand), ratio) == MarginPct(RouteFees(cfg, env.takerRates, cand), ratio)
  {
  }

  /** Every environment has at least the fixed costs of the quiet one, and no fee known that the quiet one lacks. */
  lemma QuietIsCheapest(cfg: ScannerConfig, env: Environment, cand: Candidate)
    requires LegalRanges(cfg) && env.InRange() && OrZero(cand.bridgeFeeUsd) >= 0.0
    ensures ResolveFees(cfg, env, cand).NonNegative()
    ensures ResolveFees(cfg, env, cand).FixedUsd() >= RouteFees(cfg, env.takerRates, cand).FixedUsd() >= 0.0
    ensures FeesKnown(env, cand) ==> FeesKnown(QuietEnvironment(cfg, env.takerRates), cand)
  {
  }

  /** Whatever is published was publishable. */
  lemma PublishedIsPublishable(cfg: ScannerConfig, env: Environment, cand: Candidate, buyBook: OrderBook,
                               sellBook: OrderBook, b: real, s: real)
    requires LegalRanges(cfg) && env.InRange() && OrZero(cand.bridgeFeeUsd) >= 0.0 && b > 0.0
    requires BooksUsable(cand, Some(buyBook), Some(sellBook)) && BooksAt(cand, buyBook, sellBook, b, s)
    requires FullPipeline(cfg, env, cand, Some(buyBook), Some(sellBook)).Published?
    ensures Publishable(cfg, env.takerRates, cand, b, s)
  {
    var result := FullPipeline(cfg, env, cand, Some(buyBook), Some(sellBook));
    var bd := result.breakdown;
    PublishedIsSwept(cfg, env, cand, buyBook, sellBook);
    PublishedPassed(cfg, env, cand, Some(buyBook), Some(sellBook));
    PassesIff(cfg, ContextFor(env, cand, bd, result.sizing));
    hide FullPipeline, ComputeAtSize, Saturation, Validate, Notional, FeesKnown, ResolveFees;
    hide FeeInputs.ResolvedCategories, QuietEnvironment, BestRatio, MarginPct, Leg.BestPrice, RouteFees;
    var buyLeg, sellLeg, fees := BuyLegOf(cand, buyBook), SellLegOf(cand, sellBook), ResolveFees(cfg, env, cand);
    var sat := Saturation(cfg, buyLeg, sellLeg, cand.buyLeg.venueType, cand.sellLeg.venueType);
    var k :| 0 <= k < |SWEEP| && Some(bd) == ComputeAtSize(Notional(sat, SWEEP[k]), buyLeg, sellLeg, fees);
    QuietIsCheapest(cfg, env, cand);
    SpreadOfBreakdown(Notional(sat, SWEEP[k]), buyLeg, sellLeg, fees);
    ResolvedMeansKnown(cfg, env, cand);
    SweepOrder(sat, k);
    ClearedMargin(cfg, env, cand, buyLeg, sellLeg, Notional(sat, SWEEP[k]), b, s);
  }

  /** A size that clears the return bar at a profit shows that the best margin does. */
  lemma ClearedMargin(cfg: ScannerConfig, env: Environment, cand: Candidate, buyLeg: Leg, sellLeg: Leg, size: real,
                      b: real, s: real)
    requires LegalRanges(cfg) && env.InRange() && OrZero(cand.bridgeFeeUsd) >= 0.0
    requires SoundTrade(buyLeg, sellLeg) && b > 0.0
    requires TypeOf(buyLeg) == cand.buyLeg.venueType && TypeOf(sellLeg) == cand.sellLeg.venueType
    requires buyLeg.BestPrice() == Some(b) && sellLeg.BestPrice() == Some(s)
    requires 0.0 < Saturation(cfg, buyLeg, sellLeg, TypeOf(buyLeg), TypeOf(sellLeg)) <= 4.0 * size
    requires ComputeAtSize(size, buyLeg, sellLeg, ResolveFees(cfg, env, cand)).Some?
    requires var bd := ComputeAtSize(size, buyLeg, sellLeg, ResolveFees(cfg, env, cand)).value;
      bd.netProfitUsd > 0.0 && bd.roiPct >= cfg.minRoiPct
    ensures var margin := BestMarginPct(cfg, env.takerRates, cand, b, s);
      margin > 0.0
      && (margin > cfg.minRoiPct || (BestIsReached(cfg, env.takerRates, cand) && margin == cfg.minRoiPct))
  {
    hide ComputeAtSize, Saturation, Notional, ResolveFees, RouteFees, BestRatio, MarginPct, FillsAt, Leg.BestPrice;
    hide QuietEnvironment, Leg.Sound, FeeInputs.FixedUsd;
    var fees, quiet := ResolveFees(cfg, env, cand), RouteFees(cfg, env.takerRates, cand);
    QuietIsCheapest(cfg, env, cand);
    ReturnByRatio(size, buyLeg, sellLeg, fees);
    RatioCeiling(cfg, buyLeg, sellLeg, size);
    var f, bd := FillsAt(size, buyLeg, sellLeg).value, ComputeAtSize(size, buyLeg, sellLeg, fees).value;
    var best := BestRatio(cfg, TypeOf(buyLeg), TypeOf(sellLeg), s / b);
    ReturnSign(size, bd.roiPct, bd.netProfitUsd);
    FixedShare(fees.FixedUsd(), size);
    MarginNeedsGain(fees, f.sellFill / f.buyFill);
    MarginOfRates(cfg, env, cand, f.sellFill / f.buyFill);
    MarginOfRates(cfg, env, cand, best);
    MarginOrder(fees, f.sellFill / f.buyFill, best);
    MarginOrder(fees, best, f.sellFill / f.buyFill);
  }

  lemma ReturnSign(size: real, roi: real, net: real)
    requires size > 0.0 && Notional(size, roi) == Notional(100.0, net)
    ensures roi > 0.0 <==> net > 0.0
  {
    SignKept(roi, size);
  }

  lemma FixedShare(fixed: real, size: real)
    requires size > 0.0 && fixed >= 0.0
    ensures fixed / size * 100.0 >= 0.0
    ensures fixed > 0.0 ==> fixed / size * 100.0 > 0.0
  {
    SignKept(fixed / size, size);
  }

  lemma MarginNeedsGain(fees: FeeInputs, ratio: real)
    requires fees.NonNegative() && MarginPct(fees, ratio) > 0.0
    ensures ratio > 1.0
  {
    GainOf(ratio, 1.0 - OrZero(fees.sellFeeRate), OrZero(fees.buyFeeRate) + fees.conversionCostBps / 10000.0);
  }

  lemma GainOf(ratio: real, kept: real, costs: real)
    requires 0.0 < kept <= 1.0 && costs >= 0.0 && (ratio * kept - 1.0 - costs) * 100.0 > 0.0
    ensures ratio > 1.0
  {
    var proceeds := ratio * kept;
    assert proceeds > 1.0;
    assert (ratio - 1.0) * kept == proceeds - kept;
    SignKept(ratio - 1.0, kept);
  }

  /** What a deep trade at this ratio is sure to fetch. */
  function SureRatio(bt: VenueType, st: VenueType, ratio: real): real {
    if bt == DEX && st == CEX then MinReal(ratio, 3.2) else ratio
  }

  lemma DeepTrade(cfg: ScannerConfig, bt: VenueType, st: VenueType, b: real, s: real, ratio: real, amount: real)
    returns (buyBook: OrderBook, sellBook: OrderBook)
    requires LegalRanges(cfg) && b > 0.0 && s > 0.0 && amount > 0.0 && ratio > 0.0
    requires if bt == CEX && st == CEX then ratio == s / b else ratio < BestRatio(cfg, bt, st, s / b)
    ensures DeepTradeAt(cfg, buyBook, sellBook, bt, st, b, s, amount, SureRatio(bt, st, ratio))
  {
    hide DeepTradeAt, PoolShare, Damped, LeastImpact;
    if bt == CEX && st == CEX {
      buyBook, sellBook := DeepBooksTrade(cfg, b, s, amount);
    } else if bt == CEX {
      buyBook, sellBook := DeepSaleToPool(cfg, b, s, ratio, amount);
    } else if st == CEX {
      buyBook, sellBook := DeepBuyFromPool(cfg, b, s, ratio, amount);
    } else {
      buyBook, sellBook := DeepPools(cfg, b, s, ratio, amount);
    }
  }

  /** A ratio halfway between the return bar and the best. */
  function RatioBetween(cfg: ScannerConfig, fees: FeeInputs, best: real): real
    requires OrZero(fees.sellFeeRate) < 1.0
  {
    (1.0 + OrZero(fees.buyFeeRate) + fees.conversionCostBps / 10000.0 + (cfg.minRoiPct + MarginPct(fees, best)) / 200.0)
    / (1.0 - OrZero(fees.sellFeeRate))
  }

  lemma RatioBetweenWorks(cfg: ScannerConfig, fees: FeeInputs, best: real)
    requires cfg.InRange() && fees.NonNegative() && MarginPct(fees, best) > cfg.minRoiPct
    ensures 0.0 < RatioBetween(cfg, fees, best) < best
    ensures MarginPct(fees, RatioBetween(cfg, fees, best)) == (cfg.minRoiPct + MarginPct(fees, best)) / 2.0
  {
    var kept, ratio := 1.0 - OrZero(fees.sellFeeRate), RatioBetween(cfg, fees, best);
    assert ratio * kept == 1.0 + OrZero(fees.buyFeeRate) + fees.conversionCostBps / 10000.0
                           + (cfg.minRoiPct + MarginPct(fees, best)) / 200.0;
    SignKept(ratio, kept);
    assert MarginPct(fees, ratio) == (cfg.minRoiPct + MarginPct(fees, best)) / 2.0;
    hide MarginPct, RatioBetween;
    MarginOrder(fees, best, ratio);
  }

  /** Far apart tops bought from a pool still leave more than any return bar. */
  lemma FarTopsClear(cfg: ScannerConfig, fees: FeeInputs)
    requires LegalRanges(cfg) && fees.NonNegative() && OrZero(fees.buyFeeRate) == 0.0
    requires OrZero(fees.sellFeeRate) <= 0.05 && fees.conversionCostBps <= 10000.0
    ensures MarginPct(fees, 3.2) >= cfg.minRoiPct + 4.0
  {
  }

  /** The ratio to aim for, and by how much it passes the bar. */
  lemma Target(cfg: ScannerConfig, rates: map<string, real>, cand: Candidate, b: real, s: real)
    returns (ratio: real, spare: real)
    requires LegalRanges(cfg) && RatesInRange(rates) && OrZero(cand.bridgeFeeUsd) >= 0.0 && b > 0.0 && s > 0.0
    requires Publishable(cfg, rates, cand, b, s)
    ensures ratio > 0.0 && spare > 0.0
    ensures var bt, st := cand.buyLeg.venueType, cand.sellLeg.venueType;
      if bt == CEX && st == CEX then ratio == s / b else ratio < BestRatio(cfg, bt, st, s / b)
    ensures var fees := RouteFees(cfg, rates, cand);
      var margin := MarginPct(fees, SureRatio(cand.buyLeg.venueType, cand.sellLeg.venueType, ratio));
      margin >= spare && margin >= cfg.minRoiPct && (fees.FixedUsd() > 0.0 ==> margin - spare >= cfg.minRoiPct)
  {
    var fees, bt, st := RouteFees(cfg, rates, cand), cand.buyLeg.venueType, cand.sellLeg.venueType;
    var best := BestRatio(cfg, bt, st, s / b);
    QuietIsCheapest(cfg, QuietEnvironment(cfg, rates), cand);
    QuietRates(cfg, rates, cand);
    SignKept(s / b, b);
    hide QuietEnvironment, MarginPct, RouteFees, FeesKnown, PoolShare, Damped, LeastImpact, RatioBetween;
    if bt == CEX && st == CEX {
      ratio := s / b;
      spare := if fees.FixedUsd() == 0.0 then MarginPct(fees, best) else MarginPct(fees, best) - cfg.minRoiPct;
    } else {
      RatioBetweenWorks(cfg, fees, best);
      ratio := RatioBetween(cfg, fees, best);
      spare := MinReal(4.0, MarginPct(fees, ratio) - cfg.minRoiPct);
      if bt == DEX && st == CEX {
        FarTopsClear(cfg, fees);
      }
    }
  }

  predicate RatesInRange(rates: map<string, real>) {
    forall v :: v in rates ==> 0.0 <= rates[v] <= 0.05
  }

  lemma QuietRates(cfg: ScannerConfig, rates: map<string, real>, cand: Candidate)
    requires LegalRanges(cfg) && RatesInRange(rates)
    ensures QuietEnvironment(cfg, rates).InRange()
    ensures var fees := RouteFees(cfg, rates, cand);
      && OrZero(fees.sellFeeRate) <= 0.05 && fees.conversionCostBps <= 10000.0
      && (cand.buyLeg.venueType == DEX ==> OrZero(fees.buyFeeRate) == 0.0)
      && OrZero(fees.gasFeeUsd) == 0.0
  {
  }

  // ── large enough ──

  /** A notional at which the spare margin pays for the fixed costs and the dollar bar, and is tradeable. */
  function LargeEnough(cfg: ScannerConfig, fixed: real, spare: real): real
    requires spare > 0.0
  {
    MaxReal(cfg.minTradeableSizeUsd, 0.0) + (fixed + cfg.minNetProfitUsd + 1.0) * 100.0 / spare
  }

  lemma LargeEnoughPays(cfg: ScannerConfig, fixed: real, spare: real, size: real)
    requires cfg.InRange() && fixed >= 0.0 && spare > 0.0 && size >= LargeEnough(cfg, fixed, spare)
    ensures size > 0.0 && size >= cfg.minTradeableSizeUsd && LargeEnough(cfg, fixed, spare) > 0.0
    ensures Notional(size, spare) >= (fixed + cfg.minNetProfitUsd + 1.0) * 100.0
    ensures fixed / size * 100.0 <= spare && (fixed == 0.0 ==> fixed / size == 0.0)
  {
    var need := (fixed + cfg.minNetProfitUsd + 1.0) * 100.0;
    var x := need / spare;
    assert x * spare == need;
    SignKept(x, spare);
    NonNegativeProduct(size - x, spare);
    assert (size - x) * spare == size * spare - need;
    var y := fixed / size;
    assert y * size == fixed;
    SignKept(spare - y * 100.0, size);
    assert (spare - y * 100.0) * size == size * spare - fixed * 100.0;
  }

  /** A large enough size at a ratio with spare margin clears both bars. */
  lemma ClearsAtRatio(cfg: ScannerConfig, buyLeg: Leg, sellLeg: Leg, fees: FeeInputs, size: real, ratio: real,
                      spare: real)
    requires Fetches(buyLeg, sellLeg, size, ratio) && fees.NonNegative() && cfg.InRange() && spare > 0.0
    requires MarginPct(fees, ratio) >= spare && MarginPct(fees, ratio) >= cfg.minRoiPct
    requires fees.FixedUsd() > 0.0 ==> MarginPct(fees, ratio) - spare >= cfg.minRoiPct
    requires size >= LargeEnough(cfg, fees.FixedUsd(), spare)
    ensures ComputeAtSize(size, buyLeg, sellLeg, fees).Some?
    ensures var bd := ComputeAtSize(size, buyLeg, sellLeg, fees).value;
      ClearsGateOne(cfg, bd) && bd.netProfitUsd > 0.0
  {
    ComputedWhenFilled(size, buyLeg, sellLeg, fees);
    hide ComputeAtSize, FillsAt, MarginPct, Leg.BestPrice, Notional, LargeEnough, Leg.Sound, FeeInputs.FixedUsd;
    FixedIsNotNegative(fees);
    LargeEnoughPays(cfg, fees.FixedUsd(), spare, size);
    ReturnByRatio(size, buyLeg, sellLeg, fees);
    var f, bd := FillsAt(size, buyLeg, sellLeg).value, ComputeAtSize(size, buyLeg, sellLeg, fees).value;
    AtLeastRatio(f.buyFill, f.sellFill, ratio);
    MarginOrder(fees, ratio, f.sellFill / f.buyFill);
    var margin := MarginPct(fees, f.sellFill / f.buyFill);
    NetAtMargin(size, margin, spare, fees.FixedUsd(), bd.roiPct, bd.netProfitUsd, cfg.minNetProfitUsd);
  }

  lemma ComputedWhenFilled(size: real, buyLeg: Leg, sellLeg: Leg, fees: FeeInputs)
    requires buyLeg.Usable() && sellLeg.Usable()
    ensures FillsAt(size, buyLeg, sellLeg).Some? <==> ComputeAtSize(size, buyLeg, sellLeg, fees).Some?
  {
    hide Notional, FillsAt;
  }

  lemma FixedIsNotNegative(fees: FeeInputs)
    requires fees.NonNegative()
    ensures fees.FixedUsd() >= 0.0
  {
  }

  lemma AtLeastRatio(buyFill: real, sellFill: real, ratio: real)
    requires buyFill > 0.0 && sellFill >= Notional(buyFill, ratio)
    ensures ratio <= sellFill / buyFill
  {
    DivideBound(ratio, sellFill, buyFill);
  }

  lemma NetAtMargin(size: real, margin: real, spare: real, fixed: real, roi: real, net: real, minNet: real)
    requires size > 0.0 && margin >= spare && roi == margin - fixed / size * 100.0
    requires Notional(size, roi) == Notional(100.0, net) && fixed >= 0.0 && minNet >= 0.0
    requires Notional(size, spare) >= (fixed + minNet + 1.0) * 100.0
    ensures net >= minNet && net > 0.0
  {
    var y := fixed / size;
    assert y * size == fixed;
    NonNegativeProduct(size, margin - spare);
    assert size * (margin - spare) == size * margin - size * spare;
    assert size * roi == size * margin - 100.0 * (y * size);
  }

  /** A deep enough trade with spare margin is published. */
  lemma DeepIsPublished(cfg: ScannerConfig, env: Environment, cand: Candidate, buyBook: OrderBook, sellBook: OrderBook,
                        b: real, s: real, ratio: real, spare: real)
    requires LegalRanges(cfg) && Permits(cfg, env) && BridgeInTime(cfg, cand) && FeesKnown(env, cand)
    requires 0.0 < b <= s && TopSpreadPct(b, s) <= cfg.implausibleSpreadPct && spare > 0.0
    requires ResolveFees(cfg, env, cand).NonNegative() && OrZero(ResolveFees(cfg, env, cand).gasFeeUsd) == 0.0
    requires var fees := ResolveFees(cfg, env, cand);
      && MarginPct(fees, ratio) >= spare && MarginPct(fees, ratio) >= cfg.minRoiPct
      && (fees.FixedUsd() > 0.0 ==> MarginPct(fees, ratio) - spare >= cfg.minRoiPct)
      && DeepTradeAt(cfg, buyBook, sellBook, cand.buyLeg.venueType, cand.sellLeg.venueType, b, s,
                     4.0 * LargeEnough(cfg, fees.FixedUsd(), spare), ratio)
    ensures BooksUsable(cand, Some(buyBook), Some(sellBook)) && BooksAt(cand, buyBook, sellBook, b, s)
    ensures FullPipeline(cfg, env, cand, Some(buyBook), Some(sellBook)).Published?
  {
    hide FullPipeline, ComputeAtSize, Saturation, Notional, FeesKnown, BestRatio, MarginPct, FillsAt;
    hide FeeInputs.NonNegative, Leg.BestPrice, Leg.Sound, ResolveFees, LargeEnough, FeeInputs.FixedUsd, Permits;
    hide LeastSizeSuffices;
    var fees, bt, st := ResolveFees(cfg, env, cand), cand.buyLeg.venueType, cand.sellLeg.venueType;
    var buyLeg, sellLeg := BuyLegOf(cand, buyBook), SellLegOf(cand, sellBook);
    var sat, enough := Saturation(cfg, buyLeg, sellLeg, bt, st), LargeEnough(cfg, fees.FixedUsd(), spare);
    FixedIsNotNegative(fees);
    LargeEnoughPays(cfg, fees.FixedUsd(), spare, enough);
    QuarterOf(sat);
    var least := Notional(sat, SWEEP[0]);
    LargeEnoughPays(cfg, fees.FixedUsd(), spare, least);
    ClearsAtRatio(cfg, buyLeg, sellLeg, fees, least, ratio, spare);
    TopsApart(cfg, fees, buyLeg, sellLeg, least, b, s);
    assert SweepSizeClears(0, cfg, sat, buyLeg, sellLeg, fees);
    PublishesWhenSizeClears(cfg, env, cand, buyBook, sellBook, 0);
  }

  /** What is publishable is published, from deep enough books in the quiet environment. */
  lemma PublishableIsPublished(cfg: ScannerConfig, rates: map<string, real>, cand: Candidate, b: real, s: real)
    returns (buyBook: OrderBook, sellBook: OrderBook)
    requires LegalRanges(cfg) && RatesInRange(rates) && OrZero(cand.bridgeFeeUsd) >= 0.0 && b > 0.0 && s > 0.0
    requires Publishable(cfg, rates, cand, b, s)
    ensures BooksUsable(cand, Some(buyBook), Some(sellBook)) && BooksAt(cand, buyBook, sellBook, b, s)
    ensures FullPipeline(cfg, QuietEnvironment(cfg, rates), cand, Some(buyBook), Some(sellBook)).Published?
  {
    var ratio, spare := Target(cfg, rates, cand, b, s);
    QuietIsCheapest(cfg, QuietEnvironment(cfg, rates), cand);
    QuietRates(cfg, rates, cand);
    QuietPermits(cfg, rates);
    QuietFees(cfg, rates, cand);
    PublishableTops(cfg, rates, cand, b, s);
    hide FullPipeline, FeesKnown, QuietEnvironment, BestRatio, MarginPct, BestMarginPct, DeepTradeAt, BooksAt;
    hide BooksUsable, RouteFees, ResolveFees, LargeEnough, FeeInputs.FixedUsd, SureRatio, Permits;
    hide FeeInputs.NonNegative;
    var fees, bt, st := RouteFees(cfg, rates, cand), cand.buyLeg.venueType, cand.sellLeg.venueType;
    FixedIsNotNegative(fees);
    LargeEnoughPays(cfg, fees.FixedUsd(), spare, LargeEnough(cfg, fees.FixedUsd(), spare));
    buyBook, sellBook := DeepTrade(cfg, bt, st, b, s, ratio, 4.0 * LargeEnough(cfg, fees.FixedUsd(), spare));
    DeepIsPublished(cfg, QuietEnvironment(cfg, rates), cand, buyBook, sellBook, b, s, SureRatio(bt, st, ratio), spare);
  }

  /** Tops that make a route publishable gain. */
  lemma PublishableTops(cfg: ScannerConfig, rates: map<string, real>, cand: Candidate, b: real, s: real)
    requires LegalRanges(cfg) && RatesInRange(rates) && OrZero(cand.bridgeFeeUsd) >= 0.0 && b > 0.0 && s > 0.0
    requires Publishable(cfg, rates, cand, b, s)
    ensures s > b
  {
    hide FeesKnown, RouteFees, BestRatio, MarginPct;
    var best := BestRatio(cfg, cand.buyLeg.venueType, cand.sellLeg.venueType, s / b);
    QuietRates(cfg, rates, cand);
    QuietFees(cfg, rates, cand);
    QuietIsCheapest(cfg, QuietEnvironment(cfg, rates), cand);
    MarginNeedsGain(RouteFees(cfg, rates, cand), best);
    SignKept(s / b, b);
    BestOrder(cfg, cand.buyLeg.venueType, cand.sellLeg.venueType, s / b, s / b);
    GainingTops(b, s, s / b);
  }

  lemma GainingTops(b: real, s: real, tops: real)
    requires b > 0.0 && tops == s / b && tops > 1.0
    ensures s > b
  {
    assert tops * b == s;
    SignKept(tops - 1.0, b);
    assert (tops - 1.0) * b == s - b;
  }

  lemma BestOrder(cfg: ScannerConfig, bt: VenueType, st: VenueType, tops: real, other: real)
    requires cfg.InRange()
    ensures tops <= other ==> BestRatio(cfg, bt, st, tops) <= BestRatio(cfg, bt, st, other)
    ensures BestRatio(cfg, bt, st, 0.0) == 0.0
    ensures tops > 0.0 ==> BestRatio(cfg, bt, st, tops) <= tops
  {
    hide ToleranceCells, LeastImpact, Damped, PoolShare, FewestCells, Pow2, BestOf;
    ShareOf(cfg);
    ImpactScale(cfg, FewestCells(cfg));
    DampedOrder(PoolShare(cfg), PoolShare(cfg), LeastImpact(cfg));
    BestOfOrder(tops, other, PoolShare(cfg), Damped(PoolShare(cfg), LeastImpact(cfg)), bt, st);
  }

  lemma ShareOf(cfg: ScannerConfig)
    requires cfg.InRange()
    ensures 0.0 <= PoolShare(cfg) <= 1.0
  {
    hide Pow2;
    NonNegativeProduct(cfg.maxSlippageDexPct / 100.0, Pow2(AMM_STEPS));
  }

  lemma QuietFees(cfg: ScannerConfig, rates: map<string, real>, cand: Candidate)
    ensures ResolveFees(cfg, QuietEnvironment(cfg, rates), cand) == RouteFees(cfg, rates, cand)
  {
  }

  lemma QuietPermits(cfg: ScannerConfig, rates: map<string, real>)
    ensures Permits(cfg, QuietEnvironment(cfg, rates))
  {
  }

  /** Nothing to pay for gas, and tops that gain: the least size suffices. */
  lemma TopsApart(cfg: ScannerConfig, fees: FeeInputs, buyLeg: Leg, sellLeg: Leg, least: real, b: real, s: real)
    requires cfg.maxGasPctOfGross >= 0.0 && OrZero(fees.gasFeeUsd) == 0.0 && b > 0.0 && s > 0.0
    requires buyLeg.BestPrice() == Some(b) && sellLeg.BestPrice() == Some(s) && least > 0.0
    requires least >= cfg.minTradeableSizeUsd && TopSpreadPct(b, s) <= cfg.implausibleSpreadPct && s >= b
    ensures LeastSizeSuffices(cfg, fees, buyLeg, sellLeg, least)
  {
    hide Leg.BestPrice;
    PartOfTopsLeft(b, s);
    NonNegativeProduct(least, 1.0 - b / s);
    NonNegativeProduct(Notional(least, 1.0 - b / s), cfg.maxGasPctOfGross);
  }

  lemma PartOfTopsLeft(b: real, s: real)
    requires 0.0 < b <= s
    ensures 1.0 - b / s >= 0.0
  {
    var x := b / s;
    assert (1.0 - x) * s == s - b;
    SignKept(1.0 - x, s);
  }

  // ── the pre-gate ──

  /** Over all depths and environments, skipping the candidate when the pre-gate says so changes no verdict. */
  ghost predicate PreGateAgrees(cfg: ScannerConfig, rates: map<string, real>, cand: Candidate, b: real, s: real) {
    forall env: Environment, buyBook: OrderBook, sellBook: OrderBook ::
      AgreesOn(cfg, rates, cand, b, s, env, buyBook, sellBook)
  }

  ghost predicate AgreesOn(cfg: ScannerConfig, rates: map<string, real>, cand: Candidate, b: real, s: real,
                           env: Environment, buyBook: OrderBook, sellBook: OrderBook) {
    env.takerRates == rates && env.InRange()
    && BooksUsable(cand, Some(buyBook), Some(sellBook)) && BooksAt(cand, buyBook, sellBook, b, s)
    ==> (AssembleSpot(cfg, env, cand, Some(buyBook), Some(sellBook)).Published?
         <==> FullPipeline(cfg, env, cand, Some(buyBook), Some(sellBook)).Published?)
  }

  /** What the pre-gate says depends on the rates alone. */
  predicate PreGateSkips(cfg: ScannerConfig, rates: map<string, real>, cand: Candidate) {
    PreGate(cfg, QuietEnvironment(cfg, rates), cand).Some?
  }

  /** The pre-gate is exact, for a candidate and given tops of its books, exactly when it does not skip a route
      that these tops make publishable. */
  lemma PreGateAgreesIff(cfg: ScannerConfig, rates: map<string, real>, cand: Candidate, b: real, s: real)
    requires LegalRanges(cfg) && RatesInRange(rates) && OrZero(cand.bridgeFeeUsd) >= 0.0 && b > 0.0 && s > 0.0
    ensures PreGateAgrees(cfg, rates, cand, b, s)
            <==> !(PreGateSkips(cfg, rates, cand) && Publishable(cfg, rates, cand, b, s))
  {
    hide FullPipeline, Publishable, BooksAt, BooksUsable;
    if PreGateSkips(cfg, rates, cand) && Publishable(cfg, rates, cand, b, s) {
      var buyBook, sellBook := PublishableIsPublished(cfg, rates, cand, b, s);
      QuietRates(cfg, rates, cand);
      assert !AgreesOn(cfg, rates, cand, b, s, QuietEnvironment(cfg, rates), buyBook, sellBook);
    } else {
      forall env: Environment, buyBook: OrderBook, sellBook: OrderBook
        ensures AgreesOn(cfg, rates, cand, b, s, env, buyBook, sellBook)
      {
        AgreesUnlessPublishable(cfg, rates, cand, b, s, env, buyBook, sellBook);
      }
    }
  }

  lemma AgreesUnlessPublishable(cfg: ScannerConfig, rates: map<string, real>, cand: Candidate, b: real, s: real,
                                env: Environment, buyBook: OrderBook, sellBook: OrderBook)
    requires LegalRanges(cfg) && OrZero(cand.bridgeFeeUsd) >= 0.0 && b > 0.0
    requires PreGateSkips(cfg, rates, cand) ==> !Publishable(cfg, rates, cand, b, s)
    ensures AgreesOn(cfg, rates, cand, b, s, env, buyBook, sellBook)
  {
    hide FullPipeline, Publishable, BooksAt, BooksUsable;
    if env.takerRates == rates && env.InRange() && BooksUsable(cand, Some(buyBook), Some(sellBook))
       && BooksAt(cand, buyBook, sellBook, b, s) {
      if PreGate(cfg, env, cand).Some? && FullPipeline(cfg, env, cand, Some(buyBook), Some(sellBook)).Published? {
        PublishedIsPublishable(cfg, env, cand, buyBook, sellBook, b, s);
      }
    }
  }

  // ── how this compares with testing the tops themselves ──

  /** A publishable route passes the pre-gate's own test on the spread of its tops: to skip it when that test
      fails is safe. */
  lemma PublishablePassesTopTest(cfg: ScannerConfig, rates: map<string, real>, cand: Candidate, b: real, s: real)
    requires LegalRanges(cfg) && RatesInRange(rates) && OrZero(cand.bridgeFeeUsd) >= 0.0 && b > 0.0 && s > 0.0
    requires Publishable(cfg, rates, cand, b, s)
    ensures !PreGateSkips(cfg, rates, cand.(grossSpreadPct := TopSpreadPct(b, s)))
  {
    var fees, best := RouteFees(cfg, rates, cand), BestRatio(cfg, cand.buyLeg.venueType, cand.sellLeg.venueType, s / b);
    PublishableTops(cfg, rates, cand, b, s);
    QuietRates(cfg, rates, cand);
    QuietIsCheapest(cfg, QuietEnvironment(cfg, rates), cand);
    QuietFees(cfg, rates, cand);
    SignKept(s / b, b);
    BestOrder(cfg, cand.buyLeg.venueType, cand.sellLeg.venueType, s / b, s / b);
    hide BestRatio, FeesKnown, MarginPct;
    MarginOrder(fees, best, s / b);
    MarginBelowSpread(fees, b, s);
    RouteFloor(cfg, rates, cand, TopSpreadPct(b, s));
  }

  lemma RouteFloor(cfg: ScannerConfig, rates: map<string, real>, cand: Candidate, spreadPct: real)
    requires spreadPct > RouteFees(cfg, rates, cand).RateFloorPct()
    requires spreadPct - RouteFees(cfg, rates, cand).RateFloorPct() >= cfg.minRoiPct
    ensures !PreGateSkips(cfg, rates, cand.(grossSpreadPct := spreadPct))
  {
  }

  lemma MarginBelowSpread(fees: FeeInputs, b: real, s: real)
    requires fees.NonNegative() && 0.0 < b <= s
    ensures MarginPct(fees, s / b) <= TopSpreadPct(b, s) - fees.RateFloorPct()
  {
    SpreadOfRatio(b, s);
    PartOfTopsGain(b, s);
    NonNegativeProduct(s / b - 1.0, OrZero(fees.sellFeeRate));
  }

  lemma PartOfTopsGain(b: real, s: real)
    requires 0.0 < b <= s
    ensures s / b >= 1.0
  {
    var x := s / b;
    assert (x - 1.0) * b == s - b;
    SignKept(x - 1.0, b);
  }

  /** But that test asks less than the condition above, since the sell fee is charged on what the sale fetches:
      here it passes on the tops, the pre-gate skips the candidate, and is still exact. */
  lemma TopTestIsNotTheCondition(cfg: ScannerConfig)
    requires LegalRanges(cfg) && cfg.minRoiPct == 0.3
    ensures var rates := map["a" := 0.001, "b" := 0.001];
      var cand := DisagreeingCandidate();
      && PreGateSkips(cfg, rates, cand)
      && !PreGateSkips(cfg, rates, cand.(grossSpreadPct := TopSpreadPct(1.0, 1.005)))
      && PreGateAgrees(cfg, rates, cand, 1.0, 1.005)
  {
    var rates := map["a" := 0.001, "b" := 0.001];
    var cand := DisagreeingCandidate();
    hide PreGateAgrees;
    assert BestMarginPct(cfg, rates, cand, 1.0, 1.005) == 0.2995;
    PreGateAgreesIff(cfg, rates, cand, 1.0, 1.005);
  }

  // ── any cheap test ──

  /** Whatever the books, as long as the candidate's spread covers their tops, it is not published. */
  ghost predicate LostNowhere(cfg: ScannerConfig, rates: map<string, real>, cand: Candidate) {
    forall env: Environment, buyBook: OrderBook, sellBook: OrderBook, b: real, s: real ::
      CoveredTrade(rates, cand, env, buyBook, sellBook, b, s)
      ==> FullPipeline(cfg, env, cand, Some(buyBook), Some(sellBook)).Rejected?
  }

  ghost predicate CoveredTrade(rates: map<string, real>, cand: Candidate, env: Environment, buyBook: OrderBook,
                               sellBook: OrderBook, b: real, s: real) {
    && env.takerRates == rates && env.InRange() && b > 0.0
    && BooksUsable(cand, Some(buyBook), Some(sellBook)) && BooksAt(cand, buyBook, sellBook, b, s)
    && TopSpreadPct(b, s) <= cand.grossSpreadPct
  }

  /** The widest tops that the candidate's spread covers and that are plausible, buying at one. */
  function WidestTops(cfg: ScannerConfig, cand: Candidate): real {
    1.0 + MinReal(cand.grossSpreadPct, cfg.implausibleSpreadPct) / 100.0
  }

  /** Dropping a candidate unseen, by whatever test, loses nothing over all books its spread covers exactly
      when the widest of their tops do not make it publishable. */
  lemma DropIsLosslessIff(cfg: ScannerConfig, rates: map<string, real>, cand: Candidate)
    requires LegalRanges(cfg) && RatesInRange(rates) && OrZero(cand.bridgeFeeUsd) >= 0.0
    ensures LostNowhere(cfg, rates, cand) <==> !Publishable(cfg, rates, cand, 1.0, WidestTops(cfg, cand))
  {
    hide FullPipeline, Publishable, BooksAt, BooksUsable;
    var s := WidestTops(cfg, cand);
    if Publishable(cfg, rates, cand, 1.0, s) {
      PublishableTopsArePositive(cfg, rates, cand, s);
      var buyBook, sellBook := PublishableIsPublished(cfg, rates, cand, 1.0, s);
      QuietRates(cfg, rates, cand);
      assert CoveredTrade(rates, cand, QuietEnvironment(cfg, rates), buyBook, sellBook, 1.0, s);
    } else {
      forall env: Environment, buyBook: OrderBook, sellBook: OrderBook, b: real, s': real |
        CoveredTrade(rates, cand, env, buyBook, sellBook, b, s')
        ensures FullPipeline(cfg, env, cand, Some(buyBook), Some(sellBook)).Rejected?
      {
        if FullPipeline(cfg, env, cand, Some(buyBook), Some(sellBook)).Published? {
          PublishedIsPublishable(cfg, env, cand, buyBook, sellBook, b, s');
          PositiveTops(cand, buyBook, sellBook, b, s');
          WiderIsPublishable(cfg, rates, cand, b, s', s);
        }
      }
    }
  }

  lemma PositiveTops(cand: Candidate, buyBook: OrderBook, sellBook: OrderBook, b: real, s: real)
    requires BooksAt(cand, buyBook, sellBook, b, s)
    ensures b > 0.0 && s > 0.0
  {
    hide Leg.BestPrice, Leg.Sound;
    BestIsPositive(BuyLegOf(cand, buyBook));
    BestIsPositive(SellLegOf(cand, sellBook));
  }

  lemma PublishableTopsArePositive(cfg: ScannerConfig, rates: map<string, real>, cand: Candidate, s: real)
    requires LegalRanges(cfg) && RatesInRange(rates) && OrZero(cand.bridgeFeeUsd) >= 0.0
    requires Publishable(cfg, rates, cand, 1.0, s)
    ensures s > 0.0
  {
    hide FeesKnown, RouteFees, BestRatio, MarginPct;
    var best := BestRatio(cfg, cand.buyLeg.venueType, cand.sellLeg.venueType, s / 1.0);
    QuietRates(cfg, rates, cand);
    QuietFees(cfg, rates, cand);
    QuietIsCheapest(cfg, QuietEnvironment(cfg, rates), cand);
    MarginNeedsGain(RouteFees(cfg, rates, cand), best);
    BestOrder(cfg, cand.buyLeg.venueType, cand.sellLeg.venueType, s / 1.0, 0.0);
  }

  lemma WiderIsPublishable(cfg: ScannerConfig, rates: map<string, real>, cand: Candidate, b: real, s: real, wide: real)
    requires LegalRanges(cfg) && RatesInRange(rates) && OrZero(cand.bridgeFeeUsd) >= 0.0 && b > 0.0 && s > 0.0
    requires Publishable(cfg, rates, cand, b, s)
    requires TopSpreadPct(b, s) <= cand.grossSpreadPct && wide == WidestTops(cfg, cand)
    ensures Publishable(cfg, rates, cand, 1.0, wide)
  {
    hide FeesKnown, RouteFees, BestRatio, MarginPct, BestIsReached;
    var bt, st, fees := cand.buyLeg.venueType, cand.sellLeg.venueType, RouteFees(cfg, rates, cand);
    QuietRates(cfg, rates, cand);
    QuietFees(cfg, rates, cand);
    QuietIsCheapest(cfg, QuietEnvironment(cfg, rates), cand);
    SpreadOfRatio(b, s);
    BestOrder(cfg, bt, st, s / b, wide / 1.0);
    MarginOrder(fees, BestRatio(cfg, bt, st, s / b), BestRatio(cfg, bt, st, wide / 1.0));
  }

  lemma SpreadOfRatio(b: real, s: real)
    requires b > 0.0
    ensures TopSpreadPct(b, s) == (s / b - 1.0) * 100.0
  {
    var x, y := s / b, (s - b) / b;
    assert x * b == s && y * b == s - b;
    var gap := x - 1.0 - y;
    assert gap * b == 0.0;
    ZeroProduct(gap, b);
  }
}
