/** Books and pools deep enough to come as close as wanted to the best ratio of two given top prices. */
module DeepBooks {
  import opened Prelude
  import opened Market
  import opened Config
  import opened Mathx
  import opened LiquidityLeg
  import opened ProfitEngine
  import opened Assembler
  import opened DeepTrades

  // ── single legs ──

  /** A book that sells exactly `amount` worth at one price. */
  function AskBook(price: real, amount: real): OrderBook
    requires price > 0.0
  {
    OneLevelBook(BookLevel(price, amount / price), BookLevel(price, amount / price))
  }

  /** A book that buys `qty` at one price. */
  function BidBook(price: real, qty: real): OrderBook {
    OneLevelBook(BookLevel(price, qty), BookLevel(price, qty))
  }

  function PoolBook(reserveBase: real, reserveQuote: real, fee: real): OrderBook {
    OrderBook([], [], 0.0, None, Some(fee), Some(reserveBase), Some(reserveQuote))
  }

  lemma AskLeg(price: real, amount: real, tol: real)
    requires price > 0.0 && amount > 0.0 && tol >= 0.0
    ensures var leg := CexBookLeg(AskBook(price, amount), Buy);
      && leg.Sound() && leg.Usable() && leg.BestPrice() == Some(price) && leg.MaxSizeUsd(tol) == amount
  {
    SignKept(amount / price, price);
    OneLevelLimit(BookLevel(price, amount / price), tol);
  }

  lemma AskFill(price: real, amount: real, size: real)
    requires price > 0.0 && 0.0 < size <= amount
    ensures CexBookLeg(AskBook(price, amount), Buy).FillPrice(size) == Some(price)
  {
    SignKept(size / price, price);
    SameDivisor(size, amount, price);
    OneLevelFill(BookLevel(price, amount / price), size / price);
  }

  lemma BidLeg(price: real, qty: real, tol: real)
    requires price > 0.0 && qty > 0.0 && tol >= 0.0
    ensures var leg := CexBookLeg(BidBook(price, qty), Sell);
      && leg.Sound() && leg.Usable() && leg.BestPrice() == Some(price) && leg.MaxSizeUsd(tol) == Notional(qty, price)
  {
    OneLevelLimit(BookLevel(price, qty), tol);
  }

  lemma BidFill(price: real, qty: real, base: real)
    requires price > 0.0 && 0.0 < base <= qty
    ensures CexBookLeg(BidBook(price, qty), Sell).FillPrice(Notional(base, price)) == Some(price)
  {
    OneLevelSale(BookLevel(price, qty), base);
  }

  function BuyPool(reserve: real, price: real, kept: real): Leg
    requires price > 0.0
  {
    DexPoolLeg(PoolBook(reserve / price, reserve, 1.0 - kept), Buy)
  }

  function SellPool(reserve: real, price: real, kept: real): Leg {
    DexPoolLeg(PoolBook(reserve, Notional(reserve, price), 1.0 - kept), Sell)
  }

  lemma BuyPoolLeg(reserve: real, price: real, kept: real, tol: real)
    requires reserve > 0.0 && price > 0.0 && 0.0 < kept < 1.0
    ensures var leg := BuyPool(reserve, price, kept);
      && leg.DexPoolLeg? && leg.side == Buy && leg.Sound() && leg.Usable() && leg.BestPrice() == Some(price)
      && Kept(leg) == kept
      && leg.ReserveQuote() == reserve
      && leg.MaxSizeUsd(tol) == AmmMaxSize(reserve, reserve / price, 1.0 - kept, tol)
  {
    hide AmmMaxSize;
    var base := reserve / price;
    assert base * price == reserve;
    SignKept(base, price);
    CrossDivide(reserve, base, price, 1.0);
  }

  lemma SellPoolLeg(reserve: real, price: real, kept: real, tol: real)
    requires reserve > 0.0 && price > 0.0 && 0.0 < kept < 1.0
    ensures var leg := SellPool(reserve, price, kept);
      && leg.DexPoolLeg? && leg.side == Sell && leg.Sound() && leg.Usable() && leg.BestPrice() == Some(price)
      && Kept(leg) == kept
      && leg.ReserveBase() == reserve
      && leg.MaxSizeUsd(tol) == Notional(AmmMaxSize(reserve, Notional(reserve, price), 1.0 - kept, tol), price)
  {
    hide AmmMaxSize;
    SignKept(price, reserve);
    CrossDivide(Notional(reserve, price), reserve, price, 1.0);
  }

  lemma PoolFills(leg: Leg, notional: real)
    requires leg.Sound() && leg.DexPoolLeg? && leg.Usable() && notional > 0.0
    ensures leg.FillPrice(notional).Some?
  {
    PoolFeeFitsInSlippage(leg, notional);
  }

  // ── reserves ──

  /** A reserve in which an amount is at most a cell, and has at most this impact. */
  function ReserveFor(kept: real, amount: real, impact: real): real
    requires impact > 0.0
  {
    Notional(amount, Pow2(AMM_STEPS)) + Notional(amount, kept) / impact
  }

  lemma ReserveIsLarge(kept: real, amount: real, impact: real)
    requires kept > 0.0 && amount > 0.0 && impact > 0.0
    ensures ReserveFor(kept, amount, impact) >= Notional(amount, Pow2(AMM_STEPS)) >= amount
    ensures ReserveFor(kept, amount, impact) > amount
    ensures Notional(amount, kept) <= Notional(impact, ReserveFor(kept, amount, impact))
  {
    var p := Pow2(AMM_STEPS);
    hide Pow2;
    var extra := Notional(amount, kept) / impact;
    assert extra * impact == Notional(amount, kept);
    SignKept(kept, amount);
    SignKept(extra, impact);
    NotionalOrder(amount, 1.0, p);
    ScaleOfReserve(amount, p, extra, impact, kept);
  }

  /** Where some cell fits in the tolerance, such a reserve allows the amount. */
  lemma ReserveAllows(kept: real, tol: real, amount: real, impact: real, out: real)
    requires 0.0 < kept < 1.0 && tol >= 0.0 && kept < ToleranceCells(tol) && amount > 0.0 && impact > 0.0 && out > 0.0
    ensures AmmMaxSize(ReserveFor(kept, amount, impact), out, 1.0 - kept, tol) >= amount
  {
    hide AmmMaxSize, ToleranceCells, Pow2, Cells, ReserveFor, Notional;
    var reserve := ReserveFor(kept, amount, impact);
    ReserveIsLarge(kept, amount, impact);
    var k := PoolLimitInCells(reserve, out, kept, tol);
    SomeCellFits(k, kept, tol);
    OneCellSuffices(AmmMaxSize(reserve, out, 1.0 - kept, tol), Pow2(AMM_STEPS), k as real, reserve, amount);
  }

  lemma ScaleOfReserve(amount: real, p: real, extra: real, impact: real, kept: real)
    requires amount > 0.0 && p >= 1.0 && extra * impact == Notional(amount, kept) && impact > 0.0
    ensures Notional(amount, kept) <= Notional(impact, Notional(amount, p) + extra)
  {
    NonNegativeProduct(impact, amount * p);
    assert impact * (amount * p + extra) == impact * (amount * p) + extra * impact;
  }

  lemma SomeCellFits(k: nat, kept: real, tol: real)
    requires 0.0 < kept < ToleranceCells(tol)
    requires (k + 1) as real * kept >= ToleranceCells(tol) || k + 1 == Cells(AMM_STEPS)
    ensures k >= 1
  {
    hide ToleranceCells, Halved, Pow2, Cells;
    HalvedOnce(1.0, AMM_STEPS);
    if (k + 1) as real * kept >= ToleranceCells(tol) {
      MoreThanOne((k + 1) as real, kept);
    }
  }

  lemma MoreThanOne(n: real, g: real)
    requires g > 0.0 && n * g > g
    ensures n > 1.0
  {
    assert (n - 1.0) * g == n * g - g;
    SignKept(n - 1.0, g);
  }

  lemma OneCellSuffices(limit: real, p: real, k: real, reserve: real, amount: real)
    requires p > 0.0 && k >= 1.0 && amount > 0.0 && reserve >= Notional(amount, p)
    requires Notional(limit, p) == Notional(k, reserve)
    ensures limit >= amount
  {
    SignKept(amount, p);
    NonNegativeProduct(k - 1.0, reserve);
    assert (limit - amount) * p == k * reserve - amount * p;
    SignKept(limit - amount, p);
  }

  // ── whole trades ──

  /** At this size each unit paid fetches at least the ratio. */
  ghost predicate Fetches(buyLeg: Leg, sellLeg: Leg, size: real, ratio: real) {
    && SoundTrade(buyLeg, sellLeg) && FillsAt(size, buyLeg, sellLeg).Some?
    && var f := FillsAt(size, buyLeg, sellLeg).value;
    f.buyFill > 0.0 && f.sellFill >= Notional(f.buyFill, ratio)
  }

  lemma FillsFrom(buyLeg: Leg, sellLeg: Leg, size: real, buyFill: real, sellBest: real, sellFill: real)
    requires SoundTrade(buyLeg, sellLeg) && size > 0.0 && buyFill > 0.0
    requires buyLeg.FillPrice(size) == Some(buyFill) && sellLeg.BestPrice() == Some(sellBest)
    requires sellLeg.FillPrice(Notional(size / buyFill, sellBest)) == Some(sellFill)
    ensures FillsAt(size, buyLeg, sellLeg) == Some(Fills(buyFill, sellFill, size / buyFill))
  {
    hide Leg.FillPrice, Leg.BestPrice, Leg.Sound;
    BestIsPositive(buyLeg);
    BestIsPositive(sellLeg);
  }

  /** Book to book: any size up to the amount, at the tops. */
  lemma BookToBook(cfg: ScannerConfig, b: real, s: real, amount: real, size: real)
    requires cfg.InRange() && b > 0.0 && s > 0.0 && 0.0 < size <= amount
    ensures var buyLeg, sellLeg := CexBookLeg(AskBook(b, amount), Buy),
                                   CexBookLeg(BidBook(s, amount / b + amount / s), Sell);
      && SoundTrade(buyLeg, sellLeg) && buyLeg.BestPrice() == Some(b) && sellLeg.BestPrice() == Some(s)
      && Saturation(cfg, buyLeg, sellLeg, CEX, CEX) == amount
      && Fetches(buyLeg, sellLeg, size, s / b)
  {
    var qty := amount / b + amount / s;
    var buyLeg, sellLeg := CexBookLeg(AskBook(b, amount), Buy), CexBookLeg(BidBook(s, qty), Sell);
    hide Leg.FillPrice, FillsAt, Leg.MaxSizeUsd, Notional;
    AskLeg(b, amount, cfg.maxSlippageCexPct);
    SignKept(amount / b, b);
    SignKept(amount / s, s);
    BidLeg(s, qty, cfg.maxSlippageCexPct);
    EnoughBids(amount, b, s, qty);
    AskFill(b, amount, size);
    SignKept(size / b, b);
    SameDivisor(size, amount, b);
    BidFill(s, qty, size / b);
    FillsFrom(buyLeg, sellLeg, size, b, s, s);
    BackToPrice(b, s);
  }

  lemma EnoughBids(amount: real, b: real, s: real, qty: real)
    requires b > 0.0 && s > 0.0 && amount > 0.0 && qty >= amount / s
    ensures Notional(qty, s) >= amount
  {
    var x := amount / s;
    assert x * s == amount;
    NonNegativeProduct(qty - x, s);
    assert (qty - x) * s == qty * s - x * s;
  }

  lemma BackToPrice(b: real, s: real)
    requires b > 0.0
    ensures Notional(b, s / b) == s
  {
  }

  /** The pool such a sale goes to. */
  function SinkPool(b: real, s: real, ratio: real, amount: real, kept: real): (leg: Leg)
    requires b > 0.0 && s > 0.0 && 0.0 < ratio < s / b * kept
  {
    var impact := s / b * kept / ratio - 1.0;
    SellPool(if impact > 0.0 then ReserveFor(kept, amount / b + amount / s, impact) else 0.0, s, kept)
  }

  /** Book to pool: any size up to the amount, at any ratio below the tops less what the pool must take. */
  lemma BookToPool(cfg: ScannerConfig, b: real, s: real, ratio: real, amount: real, kept: real, size: real)
    requires cfg.InRange() && b > 0.0 && s > 0.0 && 0.0 < size <= amount
    requires 0.0 < kept < 1.0 && kept < ToleranceCells(cfg.maxSlippageDexPct) && 0.0 < ratio < s / b * kept
    ensures var buyLeg, sellLeg := CexBookLeg(AskBook(b, amount), Buy), SinkPool(b, s, ratio, amount, kept);
      && SoundTrade(buyLeg, sellLeg) && buyLeg.BestPrice() == Some(b) && sellLeg.BestPrice() == Some(s)
      && Saturation(cfg, buyLeg, sellLeg, CEX, DEX) == amount
      && Fetches(buyLeg, sellLeg, size, ratio)
  {
    var buyLeg, sellLeg := CexBookLeg(AskBook(b, amount), Buy), SinkPool(b, s, ratio, amount, kept);
    hide Leg.FillPrice, FillsAt, Leg.MaxSizeUsd, Notional, ToleranceCells, AskBook, SinkPool;
    AskLeg(b, amount, cfg.maxSlippageCexPct);
    AskFill(b, amount, size);
    SinkPoolTakes(cfg, b, s, ratio, amount, kept, size);
    FillsFrom(buyLeg, sellLeg, size, b, s, sellLeg.FillPrice(Notional(size / b, s)).value);
  }

  lemma SinkPoolTakes(cfg: ScannerConfig, b: real, s: real, ratio: real, amount: real, kept: real, size: real)
    requires cfg.InRange() && b > 0.0 && s > 0.0 && 0.0 < size <= amount
    requires 0.0 < kept < 1.0 && kept < ToleranceCells(cfg.maxSlippageDexPct) && 0.0 < ratio < s / b * kept
    ensures var leg := SinkPool(b, s, ratio, amount, kept);
      && leg.DexPoolLeg? && leg.side == Sell && leg.Sound() && leg.Usable() && leg.BestPrice() == Some(s)
      && leg.MaxSizeUsd(cfg.maxSlippageDexPct) >= amount
      && leg.FillPrice(Notional(size / b, s)).Some?
      && leg.FillPrice(Notional(size / b, s)).value >= Notional(b, ratio)
  {
    var qty, impact := amount / b + amount / s, s / b * kept / ratio - 1.0;
    SignKept(amount / b, b);
    SignKept(amount / s, s);
    RoomForImpact(s / b * kept, ratio);
    var reserve, leg := ReserveFor(kept, qty, impact), SinkPool(b, s, ratio, amount, kept);
    assert leg == SellPool(reserve, s, kept);
    hide Leg.FillPrice, FillsAt, Leg.MaxSizeUsd, Notional, ReserveFor, AmmMaxSize, ToleranceCells, SellPool, SinkPool;
    hide Leg.BestPrice, Leg.Sound, Kept;
    SignKept(size / b, b);
    SameDivisor(size, amount, b);
    ReserveIsLarge(kept, qty, impact);
    PositiveNotional(reserve, s);
    ReserveAllows(kept, cfg.maxSlippageDexPct, qty, impact, Notional(reserve, s));
    SellPoolLeg(reserve, s, kept, cfg.maxSlippageDexPct);
    EnoughBids(amount, b, s, AmmMaxSize(reserve, Notional(reserve, s), 1.0 - kept, cfg.maxSlippageDexPct));
    TargetFits(b, s, ratio, kept, impact);
    PoolSaleFetches(leg, s, size / b, qty, reserve, kept, impact, b, ratio);
  }

  lemma TargetFits(b: real, s: real, ratio: real, kept: real, impact: real)
    requires b > 0.0 && Notional(ratio, impact + 1.0) == s / b * kept
    ensures Notional(Notional(b, ratio), 1.0 + impact) <= Notional(s, kept)
  {
    var t := s / b;
    assert t * b == s;
    assert b * ratio * (1.0 + impact) == b * (ratio * (impact + 1.0));
    assert b * (t * kept) == (t * b) * kept;
  }

  lemma RoomForImpact(top: real, ratio: real)
    requires 0.0 < ratio < top
    ensures top / ratio - 1.0 > 0.0 && Notional(ratio, top / ratio - 1.0 + 1.0) == top
  {
    var x := top / ratio;
    assert x * ratio == top;
    assert (x - 1.0) * ratio == top - ratio;
    SignKept(x - 1.0, ratio);
  }

  /** Selling at most `qty` to a pool of this reserve loses at most the impact. */
  lemma PoolSaleFetches(leg: Leg, s: real, base: real, qty: real, reserve: real, kept: real, impact: real,
                        buyFill: real, ratio: real)
    requires leg.Sound() && leg.DexPoolLeg? && leg.side == Sell && leg.BestPrice() == Some(s) && s > 0.0
    requires leg.ReserveBase() == reserve > 0.0 && Kept(leg) == kept > 0.0 && 0.0 < base <= qty && impact >= 0.0
    requires Notional(qty, kept) <= Notional(impact, reserve)
    requires buyFill > 0.0 && Notional(Notional(buyFill, ratio), 1.0 + impact) <= Notional(s, kept)
    ensures leg.Usable() && leg.FillPrice(Notional(base, s)).Some?
    ensures leg.FillPrice(Notional(base, s)).value >= Notional(buyFill, ratio)
  {
    hide Leg.FillPrice, Leg.BestPrice, Kept, Leg.Sound;
    BestIsPositive(leg);
    PositiveNotional(base, s);
    PoolFills(leg, Notional(base, s));
    SellFillFactor(leg, base);
    SaleKeeps(s, base, qty, reserve, kept, impact, leg.FillPrice(Notional(base, s)).value, Notional(buyFill, ratio));
  }

  lemma SaleKeeps(s: real, base: real, qty: real, reserve: real, kept: real, impact: real, fill: real, target: real)
    requires reserve > 0.0 && kept > 0.0 && 0.0 < base <= qty && impact >= 0.0 && fill > 0.0
    requires Notional(qty, kept) <= Notional(impact, reserve)
    requires fill * (reserve + base * kept) == s * kept * reserve
    requires Notional(target, 1.0 + impact) <= Notional(s, kept)
    ensures fill >= target
  {
    NonNegativeProduct(qty - base, kept);
    assert base * kept <= impact * reserve;
    NonNegativeProduct(fill, impact * reserve - base * kept);
    assert (fill * (1.0 + impact) - s * kept) * reserve == fill * (impact * reserve - base * kept);
    SignKept(fill * (1.0 + impact) - s * kept, reserve);
    assert (fill - target) * (1.0 + impact) >= 0.0;
    SignKept(fill - target, 1.0 + impact);
  }

  /** Buying from a pool at no more than an impact costs at most that over the price the fee makes. */
  lemma PoolBuyCosts(leg: Leg, b: real, size: real, reserve: real, kept: real, impact: real)
    requires leg.Sound() && leg.DexPoolLeg? && leg.side == Buy && leg.BestPrice() == Some(b) && size > 0.0
    requires leg.ReserveQuote() == reserve > 0.0 && Kept(leg) == kept
    requires Notional(size, kept) <= Notional(impact, reserve)
    ensures leg.Usable() && leg.FillPrice(size).Some? && b > 0.0 && kept > 0.0
    ensures leg.FillPrice(size).value > 0.0
    ensures b <= Notional(leg.FillPrice(size).value, kept) <= Notional(b, 1.0 + impact)
    ensures size / leg.FillPrice(size).value > 0.0
    ensures Notional(size / leg.FillPrice(size).value, b) <= Notional(size, kept)
  {
    hide Leg.FillPrice, Leg.BestPrice, Leg.Sound;
    BestIsPositive(leg);
    KeptIsFraction(leg);
    PoolFills(leg, size);
    BuyFillFactor(leg, size);
    CostsAtMost(leg.FillPrice(size).value, b, size, reserve, kept, impact);
    CoinsBought(leg.FillPrice(size).value, b, size, kept);
  }

  lemma CostsAtMost(fill: real, b: real, size: real, reserve: real, kept: real, impact: real)
    requires reserve > 0.0 && b > 0.0 && Notional(size, kept) <= Notional(impact, reserve)
    requires fill * kept * reserve == b * (reserve + size * kept)
    ensures Notional(fill, kept) <= Notional(b, 1.0 + impact)
  {
    NonNegativeProduct(b, impact * reserve - size * kept);
    assert (b * (1.0 + impact) - fill * kept) * reserve == b * (impact * reserve - size * kept);
    SignKept(b * (1.0 + impact) - fill * kept, reserve);
  }

  lemma CoinsBought(fill: real, b: real, size: real, kept: real)
    requires fill > 0.0 && size > 0.0 && Notional(fill, kept) >= b
    ensures size / fill > 0.0 && Notional(size / fill, b) <= Notional(size, kept)
  {
    var base := size / fill;
    assert base * fill == size;
    SignKept(base, fill);
    NonNegativeProduct(base, fill * kept - b);
    assert base * (fill * kept - b) == size * kept - base * b;
  }

  /** Pool to book, while the book can take four times what the smallest swept size buys. */
  lemma PoolToBook(cfg: ScannerConfig, b: real, s: real, ratio: real, amount: real, kept: real)
    requires cfg.InRange() && b > 0.0 && s > 0.0 && amount > 0.0
    requires 0.0 < kept < 1.0 && kept < ToleranceCells(cfg.maxSlippageDexPct)
    requires 0.0 < ratio < s / b * kept <= 4.0
    ensures s / b * kept / ratio - 1.0 > 0.0
    ensures var buyLeg, sellLeg := BuyPool(ReserveFor(kept, amount, s / b * kept / ratio - 1.0), b, kept),
                                   CexBookLeg(AskBook(s, amount), Sell);
      && SoundTrade(buyLeg, sellLeg) && buyLeg.BestPrice() == Some(b) && sellLeg.BestPrice() == Some(s)
      && Saturation(cfg, buyLeg, sellLeg, DEX, CEX) == amount
      && Fetches(buyLeg, sellLeg, Notional(amount, SWEEP[0]), ratio)
  {
    var impact, tol, size := s / b * kept / ratio - 1.0, cfg.maxSlippageDexPct, Notional(amount, SWEEP[0]);
    RoomForImpact(s / b * kept, ratio);
    SweepOrder(amount, 0);
    var reserve := ReserveFor(kept, amount, impact);
    var buyLeg, sellLeg := BuyPool(reserve, b, kept), CexBookLeg(AskBook(s, amount), Sell);
    assert AskBook(s, amount) == BidBook(s, amount / s);
    hide Leg.FillPrice, FillsAt, Leg.MaxSizeUsd, Notional, ReserveFor, AmmMaxSize, ToleranceCells, Kept, BuyPool;
    hide AskBook;
    ReserveIsLarge(kept, amount, impact);
    SignKept(reserve / b, b);
    ReserveAllows(kept, tol, amount, impact, reserve / b);
    BuyPoolLeg(reserve, b, kept, tol);
    SignKept(amount / s, s);
    BidLeg(s, amount / s, cfg.maxSlippageCexPct);
    AmountBack(amount, s);
    PartOfImpact(size, amount, kept, impact, reserve);
    PoolBuyCosts(buyLeg, b, size, reserve, kept, impact);
    var fill := buyLeg.FillPrice(size).value;
    BookTakesQuarter(b, s, kept, amount, size, size / fill);
    BidFill(s, amount / s, size / fill);
    FillsFrom(buyLeg, sellLeg, size, fill, s, s);
    TargetCost(fill, b, s, ratio, kept, impact);
  }

  lemma AmountBack(amount: real, s: real)
    requires s > 0.0
    ensures Notional(amount / s, s) == amount
  {
  }

  lemma PartOfImpact(size: real, amount: real, kept: real, impact: real, reserve: real)
    requires size <= amount && kept >= 0.0 && Notional(amount, kept) <= Notional(impact, reserve)
    ensures Notional(size, kept) <= Notional(impact, reserve)
  {
    NonNegativeProduct(amount - size, kept);
    assert (amount - size) * kept == amount * kept - size * kept;
  }

  lemma BookTakesQuarter(b: real, s: real, kept: real, amount: real, size: real, base: real)
    requires b > 0.0 && s > 0.0 && s / b * kept <= 4.0 && amount > 0.0 && kept > 0.0
    requires Notional(base, b) <= Notional(size, kept) && size * 4.0 == amount
    ensures base <= amount / s
  {
    var t, qty := s / b, amount / s;
    assert t * b == s && qty * s == amount;
    SignKept(t, b);
    NonNegativeProduct(t, size * kept - base * b);
    assert t * (size * kept - base * b) == size * (t * kept) - base * s;
    NonNegativeProduct(size, 4.0 - t * kept);
    assert (qty - base) * s == amount - base * s;
    SignKept(qty - base, s);
  }

  lemma TargetCost(fill: real, b: real, s: real, ratio: real, kept: real, impact: real)
    requires b > 0.0 && kept > 0.0 && ratio > 0.0 && Notional(ratio, impact + 1.0) == s / b * kept
    requires Notional(fill, kept) <= Notional(b, 1.0 + impact)
    ensures Notional(fill, ratio) <= s
  {
    var t := s / b;
    assert t * b == s;
    NonNegativeProduct(ratio, b * (1.0 + impact) - fill * kept);
    assert b * (ratio * (impact + 1.0)) == s * kept;
    assert (s - fill * ratio) * kept == ratio * (b * (1.0 + impact) - fill * kept);
    SignKept(s - fill * ratio, kept);
  }

  /** A pool that sets the limit of the trade itself: at a quarter of its limit the impact is a quarter of the
      tolerance at most, and bounded by the cells the limit has. */
  lemma PoolSetsLimit(cfg: ScannerConfig, b: real, amount: real, kept: real) returns (k: nat)
    requires cfg.InRange() && b > 0.0 && amount > 0.0
    requires 0.0 < kept < 1.0 && kept < ToleranceCells(cfg.maxSlippageDexPct)
    ensures var reserve := ReserveFor(kept, amount, 1.0);
      var leg := BuyPool(reserve, b, kept);
      var limit := leg.MaxSizeUsd(cfg.maxSlippageDexPct);
      && leg.DexPoolLeg? && leg.side == Buy && leg.Sound() && leg.Usable() && leg.BestPrice() == Some(b)
      && Kept(leg) == kept && leg.ReserveQuote() == reserve > amount && amount <= limit <= reserve
      && Notional(limit, Pow2(AMM_STEPS)) == Notional(k as real, reserve)
    ensures k < Cells(AMM_STEPS) && k as real * kept <= ToleranceCells(cfg.maxSlippageDexPct)
  {
    var reserve, tol := ReserveFor(kept, amount, 1.0), cfg.maxSlippageDexPct;
    hide Notional, ReserveFor, AmmMaxSize, ToleranceCells, Kept, BuyPool, Pow2, Cells, Leg.BestPrice, Leg.MaxSizeUsd;
    hide Leg.Sound, Leg.Usable, Leg.ReserveQuote;
    LargePool(b, amount, kept, tol);
    k := LimitInReserve(reserve, reserve / b, kept, tol);
  }

  lemma LimitInReserve(reserve: real, out: real, kept: real, tol: real) returns (k: nat)
    requires reserve > 0.0 && out > 0.0 && kept > 0.0 && tol >= 0.0
    ensures AmmMaxSize(reserve, out, 1.0 - kept, tol) <= reserve
    ensures Notional(AmmMaxSize(reserve, out, 1.0 - kept, tol), Pow2(AMM_STEPS)) == Notional(k as real, reserve)
    ensures k < Cells(AMM_STEPS) && k as real * kept <= ToleranceCells(tol)
  {
    hide Notional, AmmMaxSize, ToleranceCells, Pow2, Cells;
    k := PoolLimitInCells(reserve, out, kept, tol);
    LimitBelowReserve(AmmMaxSize(reserve, out, 1.0 - kept, tol), k, reserve);
  }

  lemma LargePool(b: real, amount: real, kept: real, tol: real)
    requires b > 0.0 && amount > 0.0 && tol >= 0.0 && 0.0 < kept < 1.0 && kept < ToleranceCells(tol)
    ensures var reserve := ReserveFor(kept, amount, 1.0);
      var leg := BuyPool(reserve, b, kept);
      && leg.DexPoolLeg? && leg.side == Buy && leg.Sound() && leg.Usable() && leg.BestPrice() == Some(b)
      && Kept(leg) == kept && leg.ReserveQuote() == reserve > amount
      && reserve / b > 0.0
      && leg.MaxSizeUsd(tol) == AmmMaxSize(reserve, reserve / b, 1.0 - kept, tol) >= amount
  {
    hide Notional, ReserveFor, AmmMaxSize, ToleranceCells, Kept, BuyPool, Leg.BestPrice, Leg.MaxSizeUsd;
    var reserve := ReserveFor(kept, amount, 1.0);
    ReserveIsLarge(kept, amount, 1.0);
    SignKept(reserve / b, b);
    ReserveAllows(kept, tol, amount, 1.0, reserve / b);
    BuyPoolLeg(reserve, b, kept, tol);
  }

  lemma LimitBelowReserve(limit: real, k: nat, reserve: real)
    requires reserve > 0.0 && k < Cells(AMM_STEPS) && Notional(limit, Pow2(AMM_STEPS)) == Notional(k as real, reserve)
    ensures limit <= reserve
  {
    var p, n := Pow2(AMM_STEPS), k as real;
    hide Pow2, Cells;
    assert n <= p;
    NonNegativeProduct(p - n, reserve);
    assert (reserve - limit) * p == (p - n) * reserve;
    SignKept(reserve - limit, p);
  }

  lemma QuarterImpact(size: real, limit: real, p: real, k: real, kept: real, reserve: real, impact: real)
    requires p > 0.0 && reserve > 0.0 && kept > 0.0 && size * 4.0 == limit
    requires Notional(limit, p) == Notional(k, reserve) && k * kept <= impact * (4.0 * p)
    ensures Notional(size, kept) <= Notional(impact, reserve)
  {
    NonNegativeProduct(impact * (4.0 * p) - k * kept, reserve);
    assert size * 4.0 * p == k * reserve;
    assert (impact * reserve - size * kept) * (4.0 * p) == (impact * (4.0 * p) - k * kept) * reserve by {
      assert size * kept * (4.0 * p) == (size * 4.0 * p) * kept;
    }
    SignKept(impact * reserve - size * kept, 4.0 * p);
  }

  /** Pool to book, when the tops are so far apart that the book would not take what a quarter of its own
      limit buys: let the pool set the limit. What is lost then is a fifth at most. */
  lemma PoolToDeepBook(cfg: ScannerConfig, b: real, s: real, amount: real, kept: real, far: real)
    returns (sat: real)
    requires cfg.InRange() && cfg.maxSlippageDexPct <= 100.0 && b > 0.0 && s > 0.0 && amount > 0.0
    requires 0.0 < kept < 1.0 && kept < ToleranceCells(cfg.maxSlippageDexPct) && Notional(s / b, kept) > far == 4.0
    ensures sat >= amount
    ensures var reserve := ReserveFor(kept, amount, 1.0);
      var buyLeg, sellLeg := BuyPool(reserve, b, kept), CexBookLeg(BidBook(s, reserve / b + reserve / s), Sell);
      && SoundTrade(buyLeg, sellLeg) && buyLeg.BestPrice() == Some(b) && sellLeg.BestPrice() == Some(s)
      && Saturation(cfg, buyLeg, sellLeg, DEX, CEX) == sat
      && Fetches(buyLeg, sellLeg, Notional(sat, SWEEP[0]), 3.2)
  {
    hide Leg.FillPrice, FillsAt, Leg.MaxSizeUsd, Notional, ReserveFor, AmmMaxSize, ToleranceCells, Kept, BuyPool;
    hide BidBook, Pow2, Cells, Leg.BestPrice, Leg.Sound;
    var k := PoolSetsLimit(cfg, b, amount, kept);
    var reserve := ReserveFor(kept, amount, 1.0);
    var qty := reserve / b + reserve / s;
    var buyLeg, sellLeg := BuyPool(reserve, b, kept), CexBookLeg(BidBook(s, qty), Sell);
    sat := buyLeg.MaxSizeUsd(cfg.maxSlippageDexPct);
    SignKept(reserve / b, b);
    SignKept(reserve / s, s);
    BidLeg(s, qty, cfg.maxSlippageCexPct);
    EnoughBids(reserve, b, s, qty);
    SweepOrder(sat, 0);
    var size := Notional(sat, SWEEP[0]);
    var fill := QuarterCost(cfg, buyLeg, b, size, sat, k, kept, reserve);
    BidFill(s, qty, size / fill);
    FillsFrom(buyLeg, sellLeg, size, fill, s, s);
    FarApart(fill, b, s, kept, far);
  }

  lemma QuarterCost(cfg: ScannerConfig, leg: Leg, b: real, size: real, sat: real, k: nat, kept: real, reserve: real)
    returns (fill: real)
    requires cfg.InRange() && cfg.maxSlippageDexPct <= 100.0
    requires leg.Sound() && leg.DexPoolLeg? && leg.side == Buy && leg.BestPrice() == Some(b) && 0.0 < size <= reserve
    requires leg.ReserveQuote() == reserve > 0.0 && Kept(leg) == kept && 0.0 < kept < 1.0
    requires size == Notional(sat, SWEEP[0]) && Notional(sat, Pow2(AMM_STEPS)) == Notional(k as real, reserve)
    requires k as real * kept <= ToleranceCells(cfg.maxSlippageDexPct)
    ensures leg.Usable() && leg.FillPrice(size) == Some(fill)
    ensures b > 0.0 && fill > 0.0 && Notional(fill, kept) <= Notional(b, 1.25) && 0.0 < size / fill <= reserve / b
  {
    hide Leg.FillPrice, Notional, ToleranceCells, Kept, Pow2, Leg.BestPrice, Leg.Sound;
    QuarterOf(sat);
    ToleranceIsWhole(cfg.maxSlippageDexPct, k as real * kept);
    QuarterImpact(size, sat, Pow2(AMM_STEPS), k as real, kept, reserve, 0.25);
    PoolBuyCosts(leg, b, size, reserve, kept, 0.25);
    fill := leg.FillPrice(size).value;
    BookTakesAll(b, kept, reserve, size, size / fill);
  }

  lemma QuarterOf(sat: real)
    ensures Notional(sat, SWEEP[0]) * 4.0 == sat
  {
  }

  lemma ToleranceIsWhole(tol: real, cells: real)
    requires 0.0 <= tol <= 100.0 && cells <= ToleranceCells(tol)
    ensures cells <= 0.25 * (4.0 * Pow2(AMM_STEPS))
  {
    var p := Pow2(AMM_STEPS);
    hide Pow2;
    NonNegativeProduct(1.0 - tol / 100.0, p);
    assert (1.0 - tol / 100.0) * p == p - tol / 100.0 * p;
  }

  lemma BookTakesAll(b: real, kept: real, reserve: real, size: real, base: real)
    requires b > 0.0 && 0.0 < kept <= 1.0 && size > 0.0 && size <= reserve && Notional(base, b) <= Notional(size, kept)
    ensures base <= reserve / b
  {
    var x := reserve / b;
    assert x * b == reserve;
    NonNegativeProduct(size, 1.0 - kept);
    assert (x - base) * b == reserve - base * b;
    SignKept(x - base, b);
  }

  lemma FarApart(fill: real, b: real, s: real, kept: real, far: real)
    requires b > 0.0 && kept > 0.0 && Notional(s / b, kept) > far == 4.0 && Notional(fill, kept) <= Notional(b, 1.25)
    ensures Notional(fill, 3.2) <= s
  {
    var t := s / b;
    var y := s / b * kept;
    assert t * b == s && y == t * kept;
    FourTimes(b, y);
    assert y * b == s * kept by { assert t * b * kept == t * kept * b; }
    CheaperThan(fill, b, s, kept);
  }

  lemma FourTimes(b: real, y: real)
    requires b > 0.0 && y > 4.0
    ensures y * b > 4.0 * b
  {
    SignKept(y - 4.0, b);
    assert (y - 4.0) * b == y * b - 4.0 * b;
  }

  lemma CheaperThan(fill: real, b: real, s: real, kept: real)
    requires kept > 0.0 && s * kept > 4.0 * b && fill * kept <= b * 1.25
    ensures fill * 3.2 <= s
  {
    SignKept(s - fill * 3.2, kept);
    assert (s - fill * 3.2) * kept == s * kept - 3.2 * (fill * kept);
  }

  /** A bound on what a coin costs when the buy pool sets the limit with the fewest cells possible. */
  function DampedCost(cfg: ScannerConfig, b: real, kept: real): real
    requires kept > 0.0
  {
    b * (1.0 + LeastImpact(cfg) * kept) / kept
  }

  /** Pool to pool: the buy pool sets the limit, with the fewest cells possible, and the other is deep. */
  lemma PoolToPool(cfg: ScannerConfig, b: real, s: real, ratio: real, amount: real, kept: real)
    returns (sellLeg: Leg, sat: real)
    requires cfg.InRange() && b > 0.0 && s > 0.0 && amount > 0.0
    requires 0.0 < kept < 1.0 && kept < ToleranceCells(cfg.maxSlippageDexPct) && KeepsFewest(cfg, kept)
    requires 0.0 < ratio < s / b * kept * Damped(kept, LeastImpact(cfg))
    ensures sat >= amount && sellLeg.DexPoolLeg? && sellLeg.side == Sell
    ensures var buyLeg := BuyPool(ReserveFor(kept, amount, 1.0), b, kept);
      && SoundTrade(buyLeg, sellLeg) && buyLeg.BestPrice() == Some(b) && sellLeg.BestPrice() == Some(s)
      && Saturation(cfg, buyLeg, sellLeg, DEX, DEX) == sat
      && Fetches(buyLeg, sellLeg, Notional(sat, SWEEP[0]), ratio)
  {
    hide Leg.FillPrice, FillsAt, Leg.MaxSizeUsd, Notional, ReserveFor, AmmMaxSize, ToleranceCells, Kept, BuyPool;
    hide SinkPool, Pow2, Cells, Leg.BestPrice, Leg.Sound, LeastImpact, FewestCells, Damped, DampedCost, KeepsFewest;
    var k := PoolSetsLimit(cfg, b, amount, kept);
    var reserve, cost := ReserveFor(kept, amount, 1.0), DampedCost(cfg, b, kept);
    var buyLeg := BuyPool(reserve, b, kept);
    sat := buyLeg.MaxSizeUsd(cfg.maxSlippageDexPct);
    SweepOrder(sat, 0);
    var size := Notional(sat, SWEEP[0]);
    var fill := FewestCellsCost(cfg, buyLeg, b, size, sat, k, kept, reserve);
    RatioAtCost(cfg, b, s, ratio, kept);
    SignKept(reserve / b, b);
    PositiveNotional(reserve / b, cost);
    sellLeg := SinkPool(cost, s, ratio, reserve + Notional(reserve / b, cost), kept);
    BoughtAtCost(size / fill, reserve / b, cost);
    SinkPoolTakes(cfg, cost, s, ratio, reserve + Notional(reserve / b, cost), kept, Notional(size / fill, cost));
    FillsFrom(buyLeg, sellLeg, size, fill, s, sellLeg.FillPrice(Notional(size / fill, s)).value);
    CheaperTarget(fill, cost, ratio);
  }

  /** So close to all that the limit has no more cells than it must. */
  predicate KeepsFewest(cfg: ScannerConfig, kept: real) {
    || FewestCells(cfg) + 1 == Cells(AMM_STEPS)
    || (FewestCells(cfg) + 1) as real * kept > ToleranceCells(cfg.maxSlippageDexPct)
  }

  lemma BoughtAtCost(base: real, most: real, cost: real)
    requires 0.0 < base <= most && cost > 0.0
    ensures 0.0 < Notional(base, cost) <= Notional(most, cost) && Notional(base, cost) / cost == base
  {
    SignKept(base, cost);
    NonNegativeProduct(most - base, cost);
    BaseFromNotional(base, cost);
  }

  lemma CheaperTarget(fill: real, cost: real, ratio: real)
    requires fill <= cost && ratio >= 0.0
    ensures Notional(fill, ratio) <= Notional(cost, ratio)
  {
    NonNegativeProduct(cost - fill, ratio);
  }

  lemma RatioAtCost(cfg: ScannerConfig, b: real, s: real, ratio: real, kept: real)
    requires b > 0.0 && s > 0.0 && kept > 0.0
    requires ratio < s / b * kept * Damped(kept, LeastImpact(cfg))
    ensures DampedCost(cfg, b, kept) > 0.0 && ratio < s / DampedCost(cfg, b, kept) * kept
  {
    hide LeastImpact, FewestCells, Pow2, Damped;
    var e, cost := LeastImpact(cfg), DampedCost(cfg, b, kept);
    assert cost == b * (1.0 + e * kept) / kept;
    hide DampedCost;
    ImpactScale(cfg, FewestCells(cfg));
    NonNegativeProduct(e, kept);
    DampedScaled(b, s, kept, e, cost);
  }

  lemma DampedScaled(b: real, s: real, kept: real, e: real, cost: real)
    requires b > 0.0 && s > 0.0 && kept > 0.0 && e * kept >= 0.0 && cost == b * (1.0 + e * kept) / kept
    ensures cost > 0.0 && s / b * kept * Damped(kept, e) == s / cost * kept
  {
    var c, d := 1.0 + e * kept, Damped(kept, e);
    assert d * c == kept;
    CostScaled(b, s, kept, c, cost);
    ScaleSame(s / b * kept, d, s / cost, kept, c);
  }

  lemma CostScaled(b: real, s: real, kept: real, c: real, cost: real)
    requires b > 0.0 && s > 0.0 && kept > 0.0 && c >= 1.0 && cost == b * c / kept
    ensures cost > 0.0 && s / cost * c == s / b * kept
  {
    assert cost * kept == b * c;
    SignKept(c, b);
    SignKept(cost, kept);
    var x, t := s / cost, s / b;
    assert x * cost == s && t * b == s;
    assert (x * c - t * kept) * b == x * (cost * kept) - (t * b) * kept;
    ZeroProduct(x * c - t * kept, b);
  }

  lemma ScaleSame(topKept: real, d: real, x: real, kept: real, c: real)
    requires c >= 1.0 && x * c == topKept && d * c == kept
    ensures topKept * d == x * kept
  {
    assert x * c * d == x * (d * c);
  }

  lemma FewestCellsCost(cfg: ScannerConfig, leg: Leg, b: real, size: real, sat: real, k: nat, kept: real, reserve: real)
    returns (fill: real)
    requires leg.Sound() && leg.DexPoolLeg? && leg.side == Buy && leg.BestPrice() == Some(b) && 0.0 < size <= reserve
    requires leg.ReserveQuote() == reserve > 0.0 && Kept(leg) == kept && 0.0 < kept < 1.0
    requires size == Notional(sat, SWEEP[0]) && Notional(sat, Pow2(AMM_STEPS)) == Notional(k as real, reserve)
    requires k < Cells(AMM_STEPS) && k as real * kept <= ToleranceCells(cfg.maxSlippageDexPct) && KeepsFewest(cfg, kept)
    ensures leg.Usable() && leg.FillPrice(size) == Some(fill)
    ensures b > 0.0 && 0.0 < fill <= DampedCost(cfg, b, kept) && 0.0 < size / fill <= reserve / b
  {
    hide Leg.FillPrice, Notional, ToleranceCells, Kept, Pow2, Cells, Leg.BestPrice, Leg.Sound, LeastImpact, FewestCells;
    hide DampedCost;
    var impact := Notional(LeastImpact(cfg), kept);
    QuarterOf(sat);
    AtMostFewest(cfg, k, kept);
    QuarterImpact(size, sat, Pow2(AMM_STEPS), k as real, kept, reserve, impact);
    PoolBuyCosts(leg, b, size, reserve, kept, impact);
    fill := leg.FillPrice(size).value;
    BookTakesAll(b, kept, reserve, size, size / fill);
    CostDivided(cfg, b, kept, fill);
  }

  lemma CostDivided(cfg: ScannerConfig, b: real, kept: real, fill: real)
    requires kept > 0.0 && Notional(fill, kept) <= Notional(b, 1.0 + Notional(LeastImpact(cfg), kept))
    ensures fill <= DampedCost(cfg, b, kept)
  {
    hide LeastImpact;
    var cost := DampedCost(cfg, b, kept);
    assert cost * kept == b * (1.0 + LeastImpact(cfg) * kept);
    SignKept(cost - fill, kept);
    assert (cost - fill) * kept == cost * kept - fill * kept;
  }

  lemma FewerThan(k: real, n: real, kept: real, q: real)
    requires kept > 0.0 && k * kept <= q < n * kept
    ensures k < n
  {
    assert (n - k) * kept == n * kept - k * kept;
    SignKept(n - k, kept);
  }

  lemma FewerCells(k: real, m: real, kept: real, e: real, p: real)
    requires k <= m && kept > 0.0 && p > 0.0 && e == m / (4.0 * p)
    ensures k * kept <= Notional(e, kept) * (4.0 * p)
  {
    var q := 4.0 * p;
    assert e * q == m;
    NonNegativeProduct(m - k, kept);
    assert e * kept * q == (e * q) * kept;
  }

  lemma NoMoreThanFewest(cfg: ScannerConfig, k: nat, kept: real)
    requires k < Cells(AMM_STEPS) && k as real * kept <= ToleranceCells(cfg.maxSlippageDexPct) && KeepsFewest(cfg, kept)
    requires kept > 0.0
    ensures k <= FewestCells(cfg)
  {
    hide ToleranceCells, Pow2, Cells, FewestCells;
    var m := FewestCells(cfg);
    if m + 1 != Cells(AMM_STEPS) {
      FewerThan(k as real, (m + 1) as real, kept, ToleranceCells(cfg.maxSlippageDexPct));
    }
  }

  lemma AtMostFewest(cfg: ScannerConfig, k: nat, kept: real)
    requires k < Cells(AMM_STEPS) && k as real * kept <= ToleranceCells(cfg.maxSlippageDexPct) && KeepsFewest(cfg, kept)
    requires kept > 0.0
    ensures k as real * kept <= Notional(LeastImpact(cfg), kept) * (4.0 * Pow2(AMM_STEPS))
  {
    hide ToleranceCells, Pow2, Cells, FewestCells, KeepsFewest, Notional;
    NoMoreThanFewest(cfg, k, kept);
    FewerCells(k as real, FewestCells(cfg) as real, kept, LeastImpact(cfg), Pow2(AMM_STEPS));
  }
}
