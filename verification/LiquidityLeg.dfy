/** One side of a trade, priced by walking a book or by a pool curve
    (src/scanner/profit/liquidity_leg.py). */
module LiquidityLeg {
  import opened Prelude
  import opened Market
  import opened Mathx

  datatype Side = Buy | Sell

  const DEFAULT_POOL_FEE := 0.003

  datatype Leg = CexBookLeg(book: OrderBook, side: Side) | DexPoolLeg(book: OrderBook, side: Side) {

    function Levels(): seq<BookLevel> {
      if side == Buy then book.asks else book.bids
    }

    /** A missing or zero tier falls back to the default. */
    function FeeRate(): real {
      if Truthy(book.poolFeeTier) then book.poolFeeTier.value else DEFAULT_POOL_FEE
    }

    function ReserveBase(): real {
      if book.reserveBase.Some? then book.reserveBase.value else 0.0
    }

    function ReserveQuote(): real {
      if book.reserveQuote.Some? then book.reserveQuote.value else 0.0
    }

    function BestPrice(): Option<real> {
      match this
      case CexBookLeg(_, Buy) => book.BestAsk()
      case CexBookLeg(_, Sell) => book.BestBid()
      case DexPoolLeg(_, _) => if ReserveBase() <= 0.0 then None else Some(ReserveQuote() / ReserveBase())
    }

    /** A pool fee is a fraction below one; beyond that the curve's division may be undefined. */
    predicate Usable() {
      DexPoolLeg? ==> FeeRate() < 1.0
    }

    function FillPrice(sizeUsd: real): Option<real>
      requires Usable()
    {
      var best := BestPrice();
      if !Truthy(best) || best.value <= 0.0 then None
      else if CexBookLeg? then Vwap(Levels(), sizeUsd / best.value)
      else if side == Buy then PoolBuyPrice(ReserveQuote(), ReserveBase(), sizeUsd, FeeRate())
      else PoolSellPrice(ReserveBase(), ReserveQuote(), sizeUsd / best.value, FeeRate())
    }

    function MaxSizeUsd(tol: real): real {
      var best := BestPrice();
      if !Truthy(best) then 0.0
      else if CexBookLeg? then Notional(MaxFillable(Levels(), best.value, tol), best.value)
      else if side == Buy then AmmMaxSize(ReserveQuote(), ReserveBase(), FeeRate(), tol)
      else Notional(AmmMaxSize(ReserveBase(), ReserveQuote(), FeeRate(), tol), best.value)
    }

    /** Fee already inside the fill price: only a pool has one. */
    function PoolFeeCostUsd(sizeUsd: real): real {
      if CexBookLeg? || sizeUsd <= 0.0 then 0.0 else Notional(sizeUsd, FeeRate())
    }

    /** A leg as the venues publish it: a positive book sorted for its side, or a pool with reserves. */
    ghost predicate Sound() {
      match this
      case CexBookLeg(_, Buy) => book.asks != [] && PositiveBook(book.asks) && Ascending(book.asks)
      case CexBookLeg(_, Sell) => book.bids != [] && PositiveBook(book.bids) && Descending(book.bids)
      case DexPoolLeg(_, _) => ReserveBase() > 0.0 && ReserveQuote() > 0.0 && 0.0 <= FeeRate() < 1.0
    }
  }

  /** Quote paid per base received, swapping `amountIn` quote. */
  function PoolBuyPrice(reserveIn: real, reserveOut: real, amountIn: real, fee: real): Option<real>
    requires fee < 1.0
  {
    SwapAlwaysDefined(reserveIn, reserveOut, amountIn, fee);
    AmmEffectivePrice(reserveIn, reserveOut, amountIn, fee)
  }

  /** Quote received per base paid, swapping `amountIn` base. */
  function PoolSellPrice(reserveIn: real, reserveOut: real, amountIn: real, fee: real): Option<real>
    requires fee < 1.0
  {
    SwapAlwaysDefined(reserveIn, reserveOut, amountIn, fee);
    var out := AmmOutput(reserveIn, reserveOut, amountIn, fee);
    if out <= 0.0 then None else Some(out / amountIn)
  }

  lemma SwapAlwaysDefined(reserveIn: real, reserveOut: real, amountIn: real, fee: real)
    requires fee < 1.0
    ensures reserveIn > 0.0 && reserveOut > 0.0 && amountIn > 0.0 ==> SwapDefined(reserveIn, amountIn, fee)
  {
    if reserveIn > 0.0 && reserveOut > 0.0 && amountIn > 0.0 {
      SwapKeepsProduct(reserveIn, reserveOut, amountIn, fee);
    }
  }

  lemma BestIsPositive(leg: Leg)
    requires leg.Sound()
    ensures leg.Usable() && Truthy(leg.BestPrice()) && leg.BestPrice().value > 0.0
  {
    if leg.DexPoolLeg? {
      SignKept(leg.ReserveQuote() / leg.ReserveBase(), leg.ReserveBase());
    }
  }

  /** What the pool's curve charges on top of the spot: at least the fee, and more with size. */
  lemma PoolBuyFacts(reserveQuote: real, reserveBase: real, amountIn: real, fee: real)
    requires reserveQuote > 0.0 && reserveBase > 0.0 && amountIn > 0.0 && 0.0 <= fee < 1.0
    ensures var fill := PoolBuyPrice(reserveQuote, reserveBase, amountIn, fee);
      && fill.Some?
      && fill.value * (1.0 - fee) >= reserveQuote / reserveBase > 0.0
      && fill.value >= reserveQuote / reserveBase
      && fill.value == BuyCurve(reserveQuote, reserveBase, amountIn, 1.0 - fee)
  {
    ImpactIsLinear(reserveQuote, reserveBase, amountIn, fee);
    var spot, g := reserveQuote / reserveBase, 1.0 - fee;
    var fill := PoolBuyPrice(reserveQuote, reserveBase, amountIn, fee).value;
    SignKept(spot, reserveBase);
    MarkedUp(spot, g, fill);
  }

  /** Average price of buying with n quote, where g is the part of the input the fee leaves. */
  function BuyCurve(reserveQuote: real, reserveBase: real, n: real, g: real): real {
    var d := reserveBase * g;
    if d == 0.0 then 0.0 else (reserveQuote + n * g) / d
  }

  lemma BuyCurveMonotone(reserveQuote: real, reserveBase: real, s: real, t: real, g: real)
    requires reserveBase > 0.0 && g > 0.0 && s <= t
    ensures BuyCurve(reserveQuote, reserveBase, s, g) <= BuyCurve(reserveQuote, reserveBase, t, g)
  {
    var d := reserveBase * g;
    assert d > 0.0;
    assert (t - s) * g >= 0.0;
    SameDivisor(reserveQuote + s * g, reserveQuote + t * g, d);
  }

  lemma MarkedUp(spot: real, g: real, fill: real)
    requires spot > 0.0 && 0.0 < g <= 1.0 && fill >= spot / g
    ensures fill * g >= spot && fill >= spot
  {
    var x := spot / g;
    assert x * g == spot;
    assert (fill - x) * g == fill * g - spot;
    SignKept(fill - x, g);
    assert x * (1.0 - g) == x - spot;
    SignKept(x, g);
    assert x * (1.0 - g) >= 0.0;
  }

  lemma PoolSellFacts(reserveBase: real, reserveQuote: real, amountIn: real, fee: real)
    requires reserveQuote > 0.0 && reserveBase > 0.0 && amountIn > 0.0 && 0.0 <= fee < 1.0
    ensures var fill := PoolSellPrice(reserveBase, reserveQuote, amountIn, fee);
      && fill.Some?
      && 0.0 < fill.value <= reserveQuote / reserveBase * (1.0 - fee)
      && fill.value <= reserveQuote / reserveBase
      && fill.value * (reserveBase + amountIn * (1.0 - fee)) == reserveQuote * (1.0 - fee)
  {
    SwapKeepsProduct(reserveBase, reserveQuote, amountIn, fee);
    var out := AmmOutput(reserveBase, reserveQuote, amountIn, fee);
    var g := 1.0 - fee;
    var fill, spot, total := out / amountIn, reserveQuote / reserveBase, reserveBase + amountIn * g;
    SellCurve(out, amountIn, total, g, reserveQuote, reserveBase);
  }

  lemma SellCurve(out: real, amountIn: real, total: real, g: real, reserveQuote: real, reserveBase: real)
    requires amountIn > 0.0 && out > 0.0 && reserveQuote > 0.0 && reserveBase > 0.0 && 0.0 < g <= 1.0
    requires total == reserveBase + amountIn * g && out * total == amountIn * g * reserveQuote
    ensures 0.0 < out / amountIn <= reserveQuote / reserveBase * g <= reserveQuote / reserveBase
    ensures out / amountIn * total == reserveQuote * g
  {
    var fill, spot := out / amountIn, reserveQuote / reserveBase;
    assert fill * amountIn == out && spot * reserveBase == reserveQuote;
    SignKept(fill, amountIn);
    SignKept(spot, reserveBase);
    assert (fill * total - reserveQuote * g) * amountIn == out * total - amountIn * g * reserveQuote;
    ZeroProduct(fill * total - reserveQuote * g, amountIn);
    assert (spot * g - fill) * reserveBase == fill * (amountIn * g);
    SignKept(spot * g - fill, reserveBase);
    assert amountIn * g > 0.0;
    assert spot * (1.0 - g) >= 0.0;
  }

  /** The fee a pool charges: its tier, or 0.3% where it publishes none or zero. */
  function TierOf(book: OrderBook): real {
    match book.poolFeeTier
    case None => 0.003
    case Some(tier) => if tier == 0.0 then 0.003 else tier
  }

  /** A published pool: reserves and a tier below one. */
  predicate Publishes(leg: Leg, base: real, quote: real) {
    && leg.DexPoolLeg? && leg.book.reserveBase == Some(base) && leg.book.reserveQuote == Some(quote)
    && base > 0.0 && quote > 0.0 && 0.0 <= TierOf(leg.book) < 1.0
  }

  lemma PublishedPool(leg: Leg, base: real, quote: real)
    requires Publishes(leg, base, quote)
    ensures leg.Usable() && leg.FeeRate() == TierOf(leg.book)
    ensures leg.ReserveBase() == base && leg.ReserveQuote() == quote
    ensures leg.BestPrice() == Some(quote / base) && quote / base > 0.0
  {
    SignKept(quote / base, base);
  }

  /** A purchase from a pool of any positive size is priced from the reserves and the tier the pool publishes. */
  lemma PoolBuyMeans(leg: Leg, base: real, quote: real, sizeUsd: real)
    requires Publishes(leg, base, quote) && leg.side == Buy && sizeUsd > 0.0
    ensures leg.Usable() && leg.PoolFeeCostUsd(sizeUsd) == Notional(sizeUsd, TierOf(leg.book))
    ensures leg.FillPrice(sizeUsd) == Some(BuyCurve(quote, base, sizeUsd, 1.0 - TierOf(leg.book)))
  {
    PublishedPool(leg, base, quote);
    var fee := TierOf(leg.book);
    hide PoolBuyPrice, PoolSellPrice, Notional, BuyCurve, TierOf, Leg.BestPrice, Leg.FeeRate;
    assert leg.FillPrice(sizeUsd) == PoolBuyPrice(quote, base, sizeUsd, fee);
    PoolBuyFacts(quote, base, sizeUsd, fee);
  }

  /** Likewise a sale: the size is turned into coins at the spot, and the fill per coin times the base reserve
      after the swap is the quote reserve less the fee. */
  lemma PoolSellMeans(leg: Leg, base: real, quote: real, sizeUsd: real)
    requires Publishes(leg, base, quote) && leg.side == Sell && sizeUsd > 0.0
    ensures leg.Usable() && leg.PoolFeeCostUsd(sizeUsd) == Notional(sizeUsd, TierOf(leg.book))
    ensures quote / base > 0.0 && leg.FillPrice(sizeUsd).Some?
    ensures var g := 1.0 - TierOf(leg.book);
      leg.FillPrice(sizeUsd).value * (base + sizeUsd / (quote / base) * g) == quote * g
  {
    var spot, fee := quote / base, TierOf(leg.book);
    PublishedPool(leg, base, quote);
    SignKept(sizeUsd / spot, spot);
    hide PoolBuyPrice, PoolSellPrice, Notional, BuyCurve, TierOf, Leg.BestPrice, Leg.FeeRate;
    assert leg.FillPrice(sizeUsd) == PoolSellPrice(base, quote, sizeUsd / spot, fee);
    PoolSellFacts(base, quote, sizeUsd / spot, fee);
  }

  /** A pool with a reserve missing or empty fills nothing. */
  lemma UnpricedPool(leg: Leg, sizeUsd: real)
    requires leg.DexPoolLeg? && leg.Usable()
    requires leg.book.reserveBase.None? || leg.book.reserveBase.value <= 0.0
             || leg.book.reserveQuote.None? || leg.book.reserveQuote.value == 0.0
    ensures leg.FillPrice(sizeUsd).None? && leg.MaxSizeUsd(sizeUsd) == 0.0
  {
    hide PoolBuyPrice, PoolSellPrice, Notional;
  }

  /** Buying never beats the best price, and a fill of a sound leg is a positive price. */
  lemma BuyFillAtOrAboveBest(leg: Leg, sizeUsd: real)
    requires leg.Sound() && leg.side == Buy && sizeUsd > 0.0
    ensures leg.Usable()
    ensures leg.FillPrice(sizeUsd).Some? ==> leg.FillPrice(sizeUsd).value >= leg.BestPrice().value > 0.0
  {
    hide Notional, Cost;
    BestIsPositive(leg);
    var best := leg.BestPrice().value;
    SignKept(sizeUsd / best, best);
    if leg.CexBookLeg? && leg.FillPrice(sizeUsd).Some? {
      FillableIffWithinDepth(leg.book.asks, sizeUsd / best);
      FillAgainstBest(leg.book.asks, sizeUsd / best);
    } else if leg.DexPoolLeg? {
      PoolBuyFacts(leg.ReserveQuote(), leg.ReserveBase(), sizeUsd, leg.FeeRate());
    }
  }

  /** Selling never beats the best price, and still earns something. */
  lemma SellFillAtOrBelowBest(leg: Leg, sizeUsd: real)
    requires leg.Sound() && leg.side == Sell && sizeUsd > 0.0
    ensures leg.Usable()
    ensures leg.FillPrice(sizeUsd).Some? ==> 0.0 < leg.FillPrice(sizeUsd).value <= leg.BestPrice().value
  {
    hide Notional, Cost;
    BestIsPositive(leg);
    var best := leg.BestPrice().value;
    SignKept(sizeUsd / best, best);
    if leg.CexBookLeg? && leg.FillPrice(sizeUsd).Some? {
      FillableIffWithinDepth(leg.book.bids, sizeUsd / best);
      FillAgainstBest(leg.book.bids, sizeUsd / best);
      FillPositive(leg.book.bids, sizeUsd / best);
    } else if leg.DexPoolLeg? {
      PoolSellFacts(leg.ReserveBase(), leg.ReserveQuote(), sizeUsd / best, leg.FeeRate());
    }
  }

  /** The pool's fee is part of the gap between fill and spot, so capping the fee's share at that
      gap never changes it. Buy: fee of the quote spent; sell: fee of the base sold, at spot. */
  lemma PoolFeeFitsInSlippage(leg: Leg, sizeUsd: real)
    requires leg.Sound() && leg.DexPoolLeg? && sizeUsd > 0.0
    ensures leg.Usable() && leg.FillPrice(sizeUsd).Some?
    ensures var fill, spot := leg.FillPrice(sizeUsd).value, leg.BestPrice().value;
      && fill > 0.0 && spot > 0.0
      && (leg.side == Buy ==> leg.PoolFeeCostUsd(sizeUsd) <= Notional(sizeUsd / fill, fill - spot))
      && (leg.side == Sell ==> leg.PoolFeeCostUsd(sizeUsd) <= Notional(sizeUsd / spot, spot - fill))
  {
    hide Notional;
    BestIsPositive(leg);
    var spot, fee := leg.BestPrice().value, leg.FeeRate();
    SignKept(sizeUsd / spot, spot);
    if leg.side == Buy {
      PoolBuyFacts(leg.ReserveQuote(), leg.ReserveBase(), sizeUsd, fee);
      BuyFeeShare(leg.FillPrice(sizeUsd).value, spot, fee, sizeUsd);
    } else {
      PoolSellFacts(leg.ReserveBase(), leg.ReserveQuote(), sizeUsd / spot, fee);
      assert leg.FillPrice(sizeUsd) == PoolSellPrice(leg.ReserveBase(), leg.ReserveQuote(), sizeUsd / spot, fee);
      SellFeeShare(leg.FillPrice(sizeUsd).value, spot, fee, sizeUsd);
    }
  }

  lemma BuyFeeShare(fill: real, spot: real, fee: real, size: real)
    requires fill > 0.0 && size > 0.0 && fill * (1.0 - fee) >= spot
    ensures Notional(size, fee) <= Notional(size / fill, fill - spot)
  {
    var base := size / fill;
    assert base * fill == size;
    SignKept(base, fill);
    assert (fill - spot) * base - fee * size == (fill * (1.0 - fee) - spot) * base;
    assert (fill * (1.0 - fee) - spot) * base >= 0.0;
  }

  lemma SellFeeShare(fill: real, spot: real, fee: real, size: real)
    requires spot > 0.0 && size > 0.0 && fill <= spot * (1.0 - fee)
    ensures Notional(size, fee) <= Notional(size / spot, spot - fill)
  {
    var base := size / spot;
    assert base * spot == size;
    SignKept(base, spot);
    assert (spot - fill) * base - fee * size == (spot * (1.0 - fee) - fill) * base;
    assert (spot * (1.0 - fee) - fill) * base >= 0.0;
  }

  /** Fill price moves against the trader as size grows, on every kind of leg. */
  lemma FillWorsensWithSize(leg: Leg, s: real, t: real)
    requires leg.Sound() && 0.0 < s <= t && leg.Usable() && leg.FillPrice(t).Some?
    ensures leg.FillPrice(s).Some?
    ensures leg.side == Buy ==> leg.FillPrice(s).value <= leg.FillPrice(t).value
    ensures leg.side == Sell ==> leg.FillPrice(s).value >= leg.FillPrice(t).value
  {
    hide Notional, Cost;
    BestIsPositive(leg);
    var best := leg.BestPrice().value;
    SignKept(s / best, best);
    SameDivisor(s, t, best);
    if leg.CexBookLeg? {
      FillableIffWithinDepth(leg.Levels(), t / best);
      FillableIffWithinDepth(leg.Levels(), s / best);
      AverageOrder(leg.Levels(), s / best, t / best);
    } else {
      PoolWorsens(leg, s, t);
    }
  }

  lemma SameDivisor(s: real, t: real, d: real)
    requires d > 0.0 && s <= t
    ensures s / d <= t / d
  {
    var x, y := s / d, t / d;
    assert (y - x) * d == t - s;
    SignKept(y - x, d);
  }

  lemma PoolBuyWorsens(reserveQuote: real, reserveBase: real, s: real, t: real, fee: real)
    requires reserveQuote > 0.0 && reserveBase > 0.0 && 0.0 < s <= t && 0.0 <= fee < 1.0
    ensures PoolBuyPrice(reserveQuote, reserveBase, s, fee).Some?
    ensures PoolBuyPrice(reserveQuote, reserveBase, t, fee).Some?
    ensures PoolBuyPrice(reserveQuote, reserveBase, s, fee).value
            <= PoolBuyPrice(reserveQuote, reserveBase, t, fee).value
  {
    hide BuyCurve, PoolBuyPrice;
    PoolBuyFacts(reserveQuote, reserveBase, s, fee);
    PoolBuyFacts(reserveQuote, reserveBase, t, fee);
    BuyCurveMonotone(reserveQuote, reserveBase, s, t, 1.0 - fee);
  }

  lemma PoolSellWorsens(reserveBase: real, reserveQuote: real, s: real, t: real, fee: real)
    requires reserveQuote > 0.0 && reserveBase > 0.0 && 0.0 < s <= t && 0.0 <= fee < 1.0
    ensures PoolSellPrice(reserveBase, reserveQuote, s, fee).Some?
    ensures PoolSellPrice(reserveBase, reserveQuote, t, fee).Some?
    ensures PoolSellPrice(reserveBase, reserveQuote, s, fee).value
            >= PoolSellPrice(reserveBase, reserveQuote, t, fee).value
  {
    hide PoolSellPrice;
    PoolSellFacts(reserveBase, reserveQuote, s, fee);
    PoolSellFacts(reserveBase, reserveQuote, t, fee);
    var g := 1.0 - fee;
    assert (t - s) * g >= 0.0 && s * g > 0.0;
    LargerFactor(PoolSellPrice(reserveBase, reserveQuote, s, fee).value, reserveBase + s * g,
                PoolSellPrice(reserveBase, reserveQuote, t, fee).value, reserveBase + t * g, reserveQuote * g);
  }

  lemma PoolWorsens(leg: Leg, s: real, t: real)
    requires leg.Sound() && leg.DexPoolLeg? && 0.0 < s <= t && leg.Usable()
    ensures leg.FillPrice(s).Some? && leg.FillPrice(t).Some?
    ensures leg.side == Buy ==> leg.FillPrice(s).value <= leg.FillPrice(t).value
    ensures leg.side == Sell ==> leg.FillPrice(s).value >= leg.FillPrice(t).value
  {
    hide PoolBuyPrice, PoolSellPrice;
    BestIsPositive(leg);
    var spot, fee := leg.BestPrice().value, leg.FeeRate();
    if leg.side == Buy {
      PoolBuyWorsens(leg.ReserveQuote(), leg.ReserveBase(), s, t, fee);
    } else {
      SameDivisor(s, t, spot);
      SignKept(s / spot, spot);
      PoolSellWorsens(leg.ReserveBase(), leg.ReserveQuote(), s / spot, t / spot, fee);
    }
  }

  lemma LargerFactor(x: real, u: real, y: real, v: real, k: real)
    requires x * u == k && y * v == k && 0.0 < u <= v && x > 0.0
    ensures x >= y
  {
    assert (x - y) * v == x * (v - u);
    assert x * (v - u) >= 0.0;
    SignKept(x - y, v);
  }

  lemma BaseOfLimit(sizeUsd: real, r: real, best: real, limit: real)
    requires best > 0.0 && limit == Notional(r, best) && sizeUsd <= limit
    ensures sizeUsd / best <= r
  {
    var x := sizeUsd / best;
    assert (r - x) * best == limit - sizeUsd;
    SignKept(r - x, best);
  }

  /** Selling to a pool pays base for quote: per quote received, 1/fill base are paid, and a swap of
      nothing would pay (1/spot)/(1-fee). Within the tolerance of one against the other, the fill keeps
      this much of the spot. */
  lemma SellWithinTolerance(reserveBase: real, reserveQuote: real, amountIn: real, fee: real, tol: real)
    requires reserveBase > 0.0 && reserveQuote > 0.0 && 0.0 <= fee < 1.0 && tol >= 0.0
    requires 0.0 < amountIn <= ImpactBudget(reserveBase, fee, tol)
    ensures PoolSellPrice(reserveBase, reserveQuote, amountIn, fee).Some?
    ensures var fill := PoolSellPrice(reserveBase, reserveQuote, amountIn, fee).value;
      && fill > 0.0
      && SlippagePct(1.0 / fill, ZeroSizePrice(reserveBase, reserveQuote, fee)) <= tol
      && fill * (1.0 + tol / 100.0) >= reserveQuote / reserveBase * (1.0 - fee)
  {
    OverBudgetIff(reserveBase, reserveQuote, amountIn, fee, tol);
    ImpactIsLinear(reserveBase, reserveQuote, amountIn, fee);
    SwapKeepsProduct(reserveBase, reserveQuote, amountIn, fee);
    PoolSellFacts(reserveBase, reserveQuote, amountIn, fee);
    var out := AmmOutput(reserveBase, reserveQuote, amountIn, fee);
    var fill := PoolSellPrice(reserveBase, reserveQuote, amountIn, fee).value;
    Reciprocal(out, amountIn);
    assert SlippagePct(1.0 / fill, ZeroSizePrice(reserveBase, reserveQuote, fee))
        == amountIn * (1.0 - fee) / reserveBase * 100.0;
    KeepsOfSpot(reserveBase, reserveQuote, amountIn, 1.0 - fee, fill, tol);
  }

  lemma Reciprocal(out: real, amountIn: real)
    requires out > 0.0 && amountIn > 0.0
    ensures out / amountIn > 0.0 && 1.0 / (out / amountIn) == amountIn / out
  {
    SignKept(out / amountIn, amountIn);
    CrossDivide(1.0, out / amountIn, amountIn, out);
  }

  lemma KeepsOfSpot(reserveBase: real, reserveQuote: real, amountIn: real, g: real, fill: real, tol: real)
    requires reserveBase > 0.0 && fill > 0.0 && fill * (reserveBase + amountIn * g) == reserveQuote * g
    requires amountIn * g / reserveBase * 100.0 <= tol
    ensures fill * (1.0 + tol / 100.0) >= reserveQuote / reserveBase * g
  {
    var x, spot := amountIn * g / reserveBase, reserveQuote / reserveBase;
    assert x * reserveBase == amountIn * g && spot * reserveBase == reserveQuote;
    assert (fill * (1.0 + x) - spot * g) * reserveBase == 0.0;
    ZeroProduct(fill * (1.0 + x) - spot * g, reserveBase);
    assert fill * (tol / 100.0 - x) >= 0.0;
  }

  lemma PoolSaleLimit(reserveBase: real, reserveQuote: real, fee: real, tol: real, sizeUsd: real, best: real)
    requires reserveBase > 0.0 && reserveQuote > 0.0 && 0.0 <= fee < 1.0 && tol >= 0.0 && best > 0.0
    requires 0.0 < sizeUsd / best && sizeUsd <= Notional(AmmMaxSize(reserveBase, reserveQuote, fee, tol), best)
    ensures PoolSellPrice(reserveBase, reserveQuote, sizeUsd / best, fee).Some?
    ensures var fill := PoolSellPrice(reserveBase, reserveQuote, sizeUsd / best, fee).value;
      && fill > 0.0
      && SlippagePct(1.0 / fill, ZeroSizePrice(reserveBase, reserveQuote, fee)) <= tol
      && fill * (1.0 + tol / 100.0) >= reserveQuote / reserveBase * (1.0 - fee)
  {
    hide Notional, AmmMaxSize, ImpactBudget, PoolSellPrice, ZeroSizePrice;
    var r := AmmMaxSize(reserveBase, reserveQuote, fee, tol);
    PoolLimitIsExact(reserveBase, reserveQuote, fee, tol);
    BaseOfLimit(sizeUsd, r, best, Notional(r, best));
    SellWithinTolerance(reserveBase, reserveQuote, sizeUsd / best, fee, tol);
  }

  lemma BookLimitHolds(leg: Leg, tol: real, sizeUsd: real)
    requires leg.Sound() && leg.CexBookLeg? && tol >= 0.0 && 0.0 < sizeUsd <= leg.MaxSizeUsd(tol)
    ensures leg.FillPrice(sizeUsd).Some?
    ensures SlippagePct(leg.FillPrice(sizeUsd).value, leg.BestPrice().value) <= tol
  {
    hide Notional, Cost;
    BestIsPositive(leg);
    var best := leg.BestPrice().value;
    SignKept(sizeUsd / best, best);
    var r := MaxFillable(leg.Levels(), best, tol);
    BookLimitIsExact(leg.Levels(), tol);
    BaseOfLimit(sizeUsd, r, best, leg.MaxSizeUsd(tol));
    FillableIffWithinDepth(leg.Levels(), sizeUsd / best);
    assert BookSlip(leg.Levels(), sizeUsd / best) <= tol;
  }

  lemma PoolBuyLimitHolds(leg: Leg, tol: real, sizeUsd: real)
    requires leg.Sound() && leg.DexPoolLeg? && leg.side == Buy && tol >= 0.0 && 0.0 < sizeUsd <= leg.MaxSizeUsd(tol)
    ensures leg.Usable() && leg.FillPrice(sizeUsd).Some?
    ensures SlippagePct(leg.FillPrice(sizeUsd).value, leg.BestPrice().value / (1.0 - leg.FeeRate())) <= tol
  {
    BestIsPositive(leg);
    PoolLimitIsExact(leg.ReserveQuote(), leg.ReserveBase(), leg.FeeRate(), tol);
    ImpactIsLinear(leg.ReserveQuote(), leg.ReserveBase(), sizeUsd, leg.FeeRate());
    OverBudgetIff(leg.ReserveQuote(), leg.ReserveBase(), sizeUsd, leg.FeeRate(), tol);
  }

  lemma PoolSellLimitHolds(leg: Leg, tol: real, sizeUsd: real)
    requires leg.Sound() && leg.DexPoolLeg? && leg.side == Sell && tol >= 0.0 && 0.0 < sizeUsd <= leg.MaxSizeUsd(tol)
    ensures leg.Usable() && leg.FillPrice(sizeUsd).Some?
    ensures var fill, best := leg.FillPrice(sizeUsd).value, leg.BestPrice().value;
      && fill > 0.0
      && SlippagePct(1.0 / fill, ZeroSizePrice(leg.ReserveBase(), leg.ReserveQuote(), leg.FeeRate())) <= tol
      && fill * (1.0 + tol / 100.0) >= best * (1.0 - leg.FeeRate())
  {
    hide Notional, AmmMaxSize, PoolSellPrice, ZeroSizePrice, SlippagePct;
    BestIsPositive(leg);
    var best := leg.BestPrice().value;
    SignKept(sizeUsd / best, best);
    PoolSaleLimit(leg.ReserveBase(), leg.ReserveQuote(), leg.FeeRate(), tol, sizeUsd, best);
  }

  /** Any size up to the leg's own limit fills, and within the tolerance that set the limit:
      against the top of a book, or against a pool's zero-size price; a sale to a pool is judged by
      what it pays for a unit of quote. */
  lemma LimitIsWithinTolerance(leg: Leg, tol: real, sizeUsd: real)
    requires leg.Sound() && tol >= 0.0 && 0.0 < sizeUsd <= leg.MaxSizeUsd(tol)
    ensures leg.Usable() && leg.FillPrice(sizeUsd).Some?
    ensures leg.CexBookLeg? ==> SlippagePct(leg.FillPrice(sizeUsd).value, leg.BestPrice().value) <= tol
    ensures leg.DexPoolLeg? && leg.side == Buy ==>
              SlippagePct(leg.FillPrice(sizeUsd).value, leg.BestPrice().value / (1.0 - leg.FeeRate())) <= tol
    ensures leg.DexPoolLeg? && leg.side == Sell ==>
              var fill, best := leg.FillPrice(sizeUsd).value, leg.BestPrice().value;
              && fill > 0.0
              && SlippagePct(1.0 / fill, ZeroSizePrice(leg.ReserveBase(), leg.ReserveQuote(), leg.FeeRate())) <= tol
              && fill * (1.0 + tol / 100.0) >= best * (1.0 - leg.FeeRate())
  {
    hide Leg.FillPrice, Leg.BestPrice, Leg.MaxSizeUsd, ZeroSizePrice, SlippagePct;
    if leg.CexBookLeg? {
      BookLimitHolds(leg, tol, sizeUsd);
    } else if leg.side == Buy {
      PoolBuyLimitHolds(leg, tol, sizeUsd);
    } else {
      PoolSellLimitHolds(leg, tol, sizeUsd);
    }
  }
}
