/** What the detectors' output means: the choices their loops make are the right ones, and what they
    leave out could not have been published (or is exempt). */
module Selection {
  import opened Prelude
  import opened Market
  import opened Config
  import opened Mathx
  import opened Signals
  import opened EconomicFloor
  import opened MarketCache
  import opened Detection

  // ── the gross spread ──

  lemma GrossIsRatio(buy: real, sell: real)
    requires buy > 0.0
    ensures GrossPct(buy, sell) == (sell / buy - 1.0) * 100.0
    ensures GrossPct(buy, sell) > 0.0 <==> sell > buy
  {
    var q, r := (sell - buy) / buy, sell / buy;
    assert q * buy == sell - buy && r * buy == sell;
    SignKept(q, buy);
    assert (q - (r - 1.0)) * buy == q * buy - (r * buy - buy);
    ZeroProduct(q - (r - 1.0), buy);
  }

  /** Buying lower and selling higher never shows a smaller spread. */
  lemma GrossMonotone(buy: real, sell: real, lowerBuy: real, higherSell: real)
    requires 0.0 < lowerBuy <= buy && 0.0 < sell <= higherSell
    ensures GrossPct(buy, sell) <= GrossPct(lowerBuy, higherSell)
  {
    assert Notional(lowerBuy, sell) <= Notional(buy, higherSell);
    RatioOrder(sell, buy, higherSell, lowerBuy);
    GrossIsRatio(buy, sell);
    GrossIsRatio(lowerBuy, higherSell);
  }

  // ── CEX-CEX: one pass finds the best pair ──

  /** Quotes as the cache admits them, one per venue. */
  ghost predicate CachedQuotes(prices: seq<CexQuote>) {
    && (forall i :: 0 <= i < |prices| ==> 0.0 < prices[i].quote.bid <= prices[i].quote.ask)
    && (forall i, j :: 0 <= i < j < |prices| ==> prices[i].venue != prices[j].venue)
  }

  lemma {:induction false} CexScanVenues(ctx: Context, c: Cache, pair: Pair, venues: seq<string>)
    ensures forall q :: q in CexScan(ctx, c, pair, venues) ==>
      q.venue in venues && q.venue in ctx.online && (q.venue, pair) in c.prices && q.quote == c.prices[(q.venue, pair)]
    ensures |CexScan(ctx, c, pair, venues)| <= |venues|
  {
    if venues != [] {
      CexScanVenues(ctx, c, pair, venues[..|venues| - 1]);
    }
  }

  lemma {:induction false} CexScanDistinct(ctx: Context, c: Cache, pair: Pair, venues: seq<string>)
    requires Distinct(venues)
    ensures var scan := CexScan(ctx, c, pair, venues);
      forall i, j :: 0 <= i < j < |scan| ==> scan[i].venue != scan[j].venue
  {
    if venues != [] {
      var rest := venues[..|venues| - 1];
      CexScanDistinct(ctx, c, pair, rest);
      CexScanVenues(ctx, c, pair, rest);
      var scan := CexScan(ctx, c, pair, rest);
      forall i | 0 <= i < |scan| ensures scan[i].venue != venues[|venues| - 1] {
        assert scan[i] in scan;
      }
    }
  }

  /** The scan of a cache that keeps its invariant yields such quotes. */
  lemma ScanIsCachedQuotes(cacheCfg: CacheConfig, ctx: Context, c: Cache, pair: Pair)
    requires Valid(cacheCfg, c)
    ensures CachedQuotes(OnlineCexPrices(ctx, c, pair))
  {
    var scan := OnlineCexPrices(ctx, c, pair);
    CexScanVenues(ctx, c, pair, c.VenuesOf(pair));
    CexScanDistinct(ctx, c, pair, c.VenuesOf(pair));
    forall i | 0 <= i < |scan| ensures 0.0 < scan[i].quote.bid <= scan[i].quote.ask {
      assert scan[i] in scan;
      assert AdmittedAt(cacheCfg, c, (scan[i].venue, pair));
    }
  }

  lemma {:induction false} BestBuyIsLeast(prices: seq<CexQuote>, n: nat)
    requires n <= |prices|
    ensures n > 0 <==> BestBuy(prices, n).Some?
    ensures n > 0 ==> forall i :: 0 <= i < n ==> prices[BestBuy(prices, n).value].quote.ask <= prices[i].quote.ask
  {
    if n > 0 {
      BestBuyIsLeast(prices, n - 1);
    }
  }

  lemma {:induction false} BestSellIsGreatest(prices: seq<CexQuote>, n: nat)
    requires n <= |prices| && CachedQuotes(prices)
    ensures n > 0 <==> BestSell(prices, n).Some?
    ensures n > 0 ==> forall i :: 0 <= i < n ==> prices[i].quote.bid <= prices[BestSell(prices, n).value].quote.bid
  {
    if n > 0 {
      BestSellIsGreatest(prices, n - 1);
    }
  }

  /** Of equal quotes the one scanned first is taken, on both sides. */
  lemma {:induction false} TiesGoToTheFirst(prices: seq<CexQuote>, n: nat, i: nat)
    requires i < n <= |prices| && CachedQuotes(prices)
    ensures BestBuy(prices, n).Some? && BestSell(prices, n).Some?
    ensures i < BestBuy(prices, n).value ==> prices[BestBuy(prices, n).value].quote.ask < prices[i].quote.ask
    ensures i < BestSell(prices, n).value ==> prices[i].quote.bid < prices[BestSell(prices, n).value].quote.bid
  {
    BestBuyIsLeast(prices, n - 1);
    BestSellIsGreatest(prices, n - 1);
    if i < n - 1 {
      TiesGoToTheFirst(prices, n - 1, i);
    }
  }

  /** Some venue bids more than another asks. */
  ghost predicate ProfitablePair(prices: seq<CexQuote>, sell: nat, buy: nat) {
    sell < |prices| && buy < |prices| && sell != buy && prices[sell].quote.bid > prices[buy].quote.ask
  }

  /** The single pass over the quotes is as good as comparing all ordered pairs of venues: it ends with
      two different venues and a positive spread exactly when some venue bids more than another asks,
      and no pair shows a greater spread. */
  lemma OnePassIsOptimal(prices: seq<CexQuote>)
    requires CachedQuotes(prices) && |prices| >= 2
    ensures BestBuy(prices, |prices|).Some? && BestSell(prices, |prices|).Some?
    ensures var b, s := prices[BestBuy(prices, |prices|).value], prices[BestSell(prices, |prices|).value];
      && ((exists i, j :: ProfitablePair(prices, i, j))
          <==> b.venue != s.venue && GrossPct(b.quote.ask, s.quote.bid) > 0.0)
      && (forall i, j :: 0 <= i < |prices| && 0 <= j < |prices| ==>
            GrossPct(prices[j].quote.ask, prices[i].quote.bid) <= GrossPct(b.quote.ask, s.quote.bid))
  {
    BestBuyIsLeast(prices, |prices|);
    BestSellIsGreatest(prices, |prices|);
    var bi, si := BestBuy(prices, |prices|).value, BestSell(prices, |prices|).value;
    var b, s := prices[bi], prices[si];
    GrossIsRatio(b.quote.ask, s.quote.bid);
    forall i, j | 0 <= i < |prices| && 0 <= j < |prices|
      ensures GrossPct(prices[j].quote.ask, prices[i].quote.bid) <= GrossPct(b.quote.ask, s.quote.bid)
    {
      GrossMonotone(prices[j].quote.ask, prices[i].quote.bid, b.quote.ask, s.quote.bid);
    }
    if b.venue != s.venue && s.quote.bid > b.quote.ask {
      assert ProfitablePair(prices, si, bi);
    }
  }

  /** The detector emits exactly when a profitable pair exists, its best spread is plausible, and that
      pair clears the floor or is an active route; what it emits is that best pair. */
  lemma CexCexEmitsIff(ctx: Context, pair: Pair, prices: seq<CexQuote>)
    requires CachedQuotes(prices) && |prices| >= 2
    ensures BestBuy(prices, |prices|).Some? && BestSell(prices, |prices|).Some?
    ensures var b, s := prices[BestBuy(prices, |prices|).value], prices[BestSell(prices, |prices|).value];
      var cand := CexCexCandidate(pair, b, s);
      CexCexOf(ctx, pair, prices) ==
        if (exists i, j :: ProfitablePair(prices, i, j))
           && (ctx.cfg.maxPlausibleCexSpreadPct <= 0.0 || cand.grossSpreadPct <= ctx.cfg.maxPlausibleCexSpreadPct)
           && (CandidateClears(ctx.cfg, ctx.rates, cand, 0.0) || cand.DedupKey() in ctx.activeRoutes)
        then [cand] else []
  {
    hide ClearsEconomicFloor, GrossPct;
    OnePassIsOptimal(prices);
  }

  // ── CEX-DEX: at most one direction can pay ──

  /** With bid at most ask, the pool is bought when it is below the bid, sold when it is above the ask,
      and left alone in between; no paying direction is passed over for the other. */
  lemma CexDexDirection(ctx: Context, pair: Pair, c: CexQuote, p: Pool)
    requires 0.0 < c.quote.bid <= c.quote.ask && p.spot > 0.0
    ensures
      var buyCex := SpotCandidate(CEX_DEX, pair, LegRef(c.venue, CEX, c.quote.ask, None, None), p.Leg(),
                                  GrossPct(c.quote.ask, p.spot), p.network);
      var buyDex := SpotCandidate(CEX_DEX, pair, p.Leg(), LegRef(c.venue, CEX, c.quote.bid, None, None),
                                  GrossPct(p.spot, c.quote.bid), p.network);
      var gas := ctx.cfg.gasEstimateUsd;
      CexDexOne(ctx, pair, c, p) ==
        if p.spot > c.quote.ask then
          (if CandidateClears(ctx.cfg, ctx.rates, buyCex, gas)
            || buyCex.DedupKey() in ctx.activeRoutes then [buyCex] else [])
        else if p.spot < c.quote.bid then
          (if CandidateClears(ctx.cfg, ctx.rates, buyDex, gas)
            || buyDex.DedupKey() in ctx.activeRoutes then [buyDex] else [])
        else []
  {
    GrossIsRatio(c.quote.ask, p.spot);
    GrossIsRatio(p.spot, c.quote.bid);
    hide ClearsEconomicFloor, GrossPct;
  }

  // ── pools: the cheaper one is bought, once per unordered pair ──

  /** Two pools trade exactly when they are on one network, their spots differ, and the candidate clears the
      floor or is an active route; the cheaper is bought. */
  lemma DexDexEmitsIff(ctx: Context, pair: Pair, a: Pool, b: Pool)
    requires a.spot > 0.0 && b.spot > 0.0
    ensures var (buy, sell) := if a.spot < b.spot then (a, b) else (b, a);
      var cand := SpotCandidate(DEX_DEX, pair, buy.Leg(), sell.Leg(), GrossPct(buy.spot, sell.spot), buy.network);
      DexDexOne(ctx, pair, a, b) ==
        if a.network == b.network && a.spot != b.spot
           && (CandidateClears(ctx.cfg, ctx.rates, cand, ctx.cfg.gasEstimateUsd) || cand.DedupKey() in ctx.activeRoutes)
        then [cand] else []
  {
    var (buy, sell) := if a.spot < b.spot then (a, b) else (b, a);
    GrossIsRatio(buy.spot, sell.spot);
    hide ClearsEconomicFloor, GrossPct;
  }

  /** Across networks: only where a bridge leads from the cheaper pool's network to the other's, at that
      bridge's flat fee on top of gas. */
  lemma CrossEmitsIff(ctx: Context, pair: Pair, buy: Pool, sell: Pool)
    requires buy.spot > 0.0 && sell.spot > 0.0 && OnNamedNetwork(buy) && OnNamedNetwork(sell)
    ensures var key := (buy.network.value, sell.network.value);
      if key in ctx.bridges then
        var route := ctx.bridges[key];
        var cand := Candidate(CROSS_CHAIN, pair.base, pair.quote, buy.Leg(), sell.Leg(),
                              GrossPct(buy.spot, sell.spot), None,
                              Some(route.name), Some(route.flatFeeUsd), Some(route.timeSec), None, None);
        CrossDirected(ctx, pair, buy, sell) ==
          if buy.spot < sell.spot
             && (CandidateClears(ctx.cfg, ctx.rates, cand, route.flatFeeUsd + ctx.cfg.gasEstimateUsd)
                 || cand.DedupKey() in ctx.activeRoutes)
          then [cand] else []
      else CrossDirected(ctx, pair, buy, sell) == []
  {
    GrossIsRatio(buy.spot, sell.spot);
    hide ClearsEconomicFloor, GrossPct;
  }

  lemma {:induction false} InPoolRow(kind: ArbType, ctx: Context, pair: Pair, pools: seq<Pool>, i: nat, j: nat,
                                     cand: Candidate)
    requires i < j <= |pools|
    ensures cand in PoolRow(kind, ctx, pair, pools, i, j)
            <==> exists b :: i < b < j && cand in PoolPair(kind, ctx, pair, pools[i], pools[b])
    decreases j
  {
    hide PoolPair;
    if j > i + 1 {
      InPoolRow(kind, ctx, pair, pools, i, j - 1, cand);
    }
  }

  lemma {:induction false} InPoolRows(kind: ArbType, ctx: Context, pair: Pair, pools: seq<Pool>, i: nat,
                                      cand: Candidate)
    requires i <= |pools|
    ensures cand in PoolRows(kind, ctx, pair, pools, i)
            <==> exists a, b :: 0 <= a < i && a < b < |pools| && cand in PoolPair(kind, ctx, pair, pools[a], pools[b])
    decreases i
  {
    hide PoolPair, PoolRow;
    if i > 0 {
      InPoolRows(kind, ctx, pair, pools, i - 1, cand);
      InPoolRow(kind, ctx, pair, pools, i - 1, |pools|, cand);
    }
  }

  /** Looking at each unordered pair once and buying on the cheaper side emits the same cross-chain
      candidates as trying every ordered pair of pools in both directions. */
  lemma HalfLoopIsDirectedLoop(ctx: Context, pair: Pair, pools: seq<Pool>, cand: Candidate)
    requires forall i :: 0 <= i < |pools| ==> pools[i].spot > 0.0
    ensures cand in PoolRows(CROSS_CHAIN, ctx, pair, pools, |pools|)
            <==> exists i, j :: 0 <= i < |pools| && 0 <= j < |pools| && pools[i].network != pools[j].network
                                && cand in CrossDirected(ctx, pair, pools[i], pools[j])
  {
    hide PoolRows, CrossDirected;
    InPoolRows(CROSS_CHAIN, ctx, pair, pools, |pools|, cand);
    if cand in PoolRows(CROSS_CHAIN, ctx, pair, pools, |pools|) {
      var a, b :| 0 <= a < |pools| && a < b < |pools| && cand in PoolPair(CROSS_CHAIN, ctx, pair, pools[a], pools[b]);
      var (i, j) := if pools[a].spot <= pools[b].spot then (a, b) else (b, a);
      assert cand in CrossDirected(ctx, pair, pools[i], pools[j]);
    }
    forall i, j | 0 <= i < |pools| && 0 <= j < |pools| && pools[i].network != pools[j].network
                  && cand in CrossDirected(ctx, pair, pools[i], pools[j])
      ensures cand in PoolRows(CROSS_CHAIN, ctx, pair, pools, |pools|)
    {
      DirectedBuysCheaper(ctx, pair, pools[i], pools[j]);
      var (a, b) := if i < j then (i, j) else (j, i);
      assert cand in PoolPair(CROSS_CHAIN, ctx, pair, pools[a], pools[b]);
    }
  }

  lemma DirectedBuysCheaper(ctx: Context, pair: Pair, buy: Pool, sell: Pool)
    requires buy.spot > 0.0 && CrossDirected(ctx, pair, buy, sell) != []
    ensures buy.spot < sell.spot
  {
    GrossIsRatio(buy.spot, sell.spot);
  }

  // ── funding: the choice by current rate ──

  lemma {:induction false} LowestIsLeast(rates: seq<FundingRate>, n: nat)
    requires 0 < n <= |rates|
    ensures forall i :: 0 <= i < n ==> rates[LowestRate(rates, n)].currentRate <= rates[i].currentRate
  {
    if n > 1 {
      LowestIsLeast(rates, n - 1);
    }
  }

  lemma {:induction false} HighestIsGreatest(rates: seq<FundingRate>, n: nat)
    requires 0 < n <= |rates|
    ensures forall i :: 0 <= i < n ==> rates[i].currentRate <= rates[HighestRate(rates, n)].currentRate
  {
    if n > 1 {
      HighestIsGreatest(rates, n - 1);
    }
  }

  lemma MorePerPeriodMorePerYear(a: FundingRate, b: FundingRate)
    requires a.intervalHours == b.intervalHours && a.currentRate <= b.currentRate
    ensures Annualized(a) <= Annualized(b)
  {
    var p := PeriodsPerYear(a.intervalHours);
    assert p > 0.0;
    SignKept(b.currentRate - a.currentRate, p);
    assert (b.currentRate - a.currentRate) * p == Annualized(b) - Annualized(a);
  }

  /** The differential the detector looks at is the largest any two of the venues offer. */
  ghost predicate ChoosesBest(rates: seq<FundingRate>)
    requires rates != []
  {
    var low, high := rates[LowestRate(rates, |rates|)], rates[HighestRate(rates, |rates|)];
    forall i, j :: 0 <= i < |rates| && 0 <= j < |rates| ==>
      Annualized(rates[j]) - Annualized(rates[i]) <= Annualized(high) - Annualized(low)
  }

  /** When all venues settle equally often, going long the least and short the greatest current rate
      collects the largest annualised differential any two venues offer. */
  lemma FundingChoiceIsBest(rates: seq<FundingRate>)
    requires rates != []
    requires forall k :: 0 <= k < |rates| ==> rates[k].intervalHours == rates[0].intervalHours
    ensures ChoosesBest(rates)
  {
    LowestIsLeast(rates, |rates|);
    HighestIsGreatest(rates, |rates|);
    forall i, j | 0 <= i < |rates| && 0 <= j < |rates|
      ensures Annualized(rates[j]) - Annualized(rates[i])
              <= Annualized(rates[HighestRate(rates, |rates|)]) - Annualized(rates[LowestRate(rates, |rates|)])
    {
      MorePerPeriodMorePerYear(rates[LowestRate(rates, |rates|)], rates[i]);
      MorePerPeriodMorePerYear(rates[j], rates[HighestRate(rates, |rates|)]);
    }
  }

  function TwoRates(h1: Hours, h2: Hours): seq<FundingRate> {
    [FundingRate("a", 1.0, 0.0, h1, 0.0),
     FundingRate("b", HalfwayRate(h1, h2), 0.0, h2, 0.0)]
  }

  /** When two venues settle at different intervals the choice can be the wrong way round: the pair the
      detector looks at loses what the opposite one would earn. */
  lemma MixedIntervalsMisjudge(h1: Hours, h2: Hours)
    requires h1 < h2
    ensures var rates := TwoRates(h1, h2);
      var low, high := rates[LowestRate(rates, 2)], rates[HighestRate(rates, 2)];
      low == rates[0] && high == rates[1]
      && Annualized(high) - Annualized(low) < 0.0 < Annualized(low) - Annualized(high)
  {
    var x, y := h1 as real, h2 as real;
    var ratio := y / x;
    assert ratio * x == y;
    SignKept(ratio - 1.0, x);
    var p, q := PeriodsPerYear(h1), PeriodsPerYear(h2);
    var u, v := 24.0 / x, 24.0 / y;
    assert u * x == 24.0 && v * y == 24.0;
    HalfwayEarnsLess(x, y, ratio, u, v);
    assert p == u * 365.0 && q == v * 365.0;
    var half := (1.0 + ratio) / 2.0;
    assert half * q == half * v * 365.0;
  }

  /** Rates of different venues, settling at these intervals. */
  ghost predicate SettleAt(rates: seq<FundingRate>, intervals: seq<Hours>) {
    && |rates| == |intervals| && (forall k :: 0 <= k < |rates| ==> rates[k].intervalHours == intervals[k])
    && (forall j, k :: 0 <= j < k < |rates| ==> rates[j].venue != rates[k].venue)
  }

  function HalfwayRate(h1: Hours, h2: Hours): real {
    (1.0 + h2 as real / h1 as real) / 2.0
  }

  /** Venue i pays one per period, venue j as in the mixed pair above, and the rest halfway between them. */
  function MixedRates(intervals: seq<Hours>, i: nat, j: nat): (rates: seq<FundingRate>)
    requires i < |intervals| && j < |intervals|
    ensures |rates| == |intervals|
  {
    var top := HalfwayRate(intervals[i], intervals[j]);
    seq(|intervals|, k requires 0 <= k < |intervals| =>
      FundingRate(seq(k, _ => 'v'), if k == i then 1.0 else if k == j then top else (1.0 + top) / 2.0,
                  0.0, intervals[k], 0.0))
  }

  lemma MixedRatesMisjudge(intervals: seq<Hours>, i: nat, j: nat)
    requires i < |intervals| && j < |intervals| && intervals[i] < intervals[j]
    ensures SettleAt(MixedRates(intervals, i, j), intervals) && !ChoosesBest(MixedRates(intervals, i, j))
  {
    hide Annualized;
    var rates := MixedRates(intervals, i, j);
    MixedIntervalsMisjudge(intervals[i], intervals[j]);
    HalfwayIsMore(intervals[i], intervals[j]);
    var pair := TwoRates(intervals[i], intervals[j]);
    SameAnnualized(rates[i], pair[0]);
    SameAnnualized(rates[j], pair[1]);
    HighestIsGreatest(rates, |rates|);
    LowestIsLeast(rates, |rates|);
    assert LowestRate(rates, |rates|) == i && HighestRate(rates, |rates|) == j;
    assert forall m, k :: 0 <= m < k < |rates| ==> |rates[m].venue| == m && |rates[k].venue| == k;
    assert Annualized(rates[i]) - Annualized(rates[j]) > Annualized(rates[j]) - Annualized(rates[i]);
  }

  lemma HalfwayIsMore(h1: Hours, h2: Hours)
    requires h1 < h2
    ensures HalfwayRate(h1, h2) > 1.0
  {
    var ratio := h2 as real / h1 as real;
    assert ratio * h1 as real == h2 as real;
    SignKept(ratio - 1.0, h1 as real);
  }

  lemma SameAnnualized(a: FundingRate, b: FundingRate)
    requires a.intervalHours == b.intervalHours && a.currentRate == b.currentRate
    ensures Annualized(a) == Annualized(b)
  {
  }

  /** However many venues there are, the choice is right whatever they pay exactly when all of them settle
      equally often. */
  lemma FundingChoiceIsBestIff(intervals: seq<Hours>)
    requires intervals != []
    ensures (forall rates :: SettleAt(rates, intervals) ==> ChoosesBest(rates))
            <==> forall k :: 0 <= k < |intervals| ==> intervals[k] == intervals[0]
  {
    if forall k :: 0 <= k < |intervals| ==> intervals[k] == intervals[0] {
      forall rates | SettleAt(rates, intervals) ensures ChoosesBest(rates) {
        FundingChoiceIsBest(rates);
      }
    } else {
      var k :| 0 <= k < |intervals| && intervals[k] != intervals[0];
      var (i, j) := if intervals[0] < intervals[k] then (0, k) else (k, 0);
      MixedRatesMisjudge(intervals, i, j);
    }
  }

  lemma HalfwayEarnsLess(x: real, y: real, ratio: real, u: real, v: real)
    requires 0.0 < x < y && ratio * x == y && u * x == 24.0 && v * y == 24.0
    ensures (1.0 + ratio) / 2.0 * v < u
  {
    assert (ratio * v) * x == 24.0 by {
      assert (ratio * v) * x == v * (ratio * x);
    }
    assert (ratio * v - u) * x == 0.0;
    ZeroProduct(ratio * v - u, x);
    assert (u - v) * x == 24.0 - v * x;
    assert v * y - v * x == v * (y - x);
    SignKept(v, y);
    SignKept(v, y - x);
    SignKept(u - v, x);
    assert (1.0 + ratio) / 2.0 * v == (v + ratio * v) / 2.0;
  }

  /** One of the asset's rates at a venue that is online. */
  ghost predicate OnlineRate(ctx: Context, m: Snapshot, base: string, r: FundingRate) {
    exists i :: 0 <= i < |m.funding| && m.funding[i] == (base, r) && r.venue in ctx.online
  }

  lemma {:induction false} OnlineRatesAreExact(ctx: Context, funding: seq<(string, FundingRate)>, base: string, n: nat,
                                               r: FundingRate)
    requires n <= |funding|
    ensures r in OnlineRates(ctx, funding, base, n)
            <==> exists i :: 0 <= i < n && funding[i] == (base, r) && r.venue in ctx.online
    ensures |OnlineRates(ctx, funding, base, n)| <= n
  {
    if n > 0 {
      OnlineRatesAreExact(ctx, funding, base, n - 1, r);
    }
  }

  /** The earliest of the entries that pay least. */
  ghost predicate FirstLeast(rates: seq<FundingRate>, i: int) {
    && 0 <= i < |rates| && (forall k :: 0 <= k < |rates| ==> rates[i].currentRate <= rates[k].currentRate)
    && (forall k :: 0 <= k < i ==> rates[i].currentRate < rates[k].currentRate)
  }

  ghost predicate FirstGreatest(rates: seq<FundingRate>, i: int) {
    && 0 <= i < |rates| && (forall k :: 0 <= k < |rates| ==> rates[k].currentRate <= rates[i].currentRate)
    && (forall k :: 0 <= k < i ==> rates[k].currentRate < rates[i].currentRate)
  }

  lemma {:induction false} ChoiceIsFirst(rates: seq<FundingRate>, n: nat)
    requires 0 < n <= |rates|
    ensures forall k :: 0 <= k < LowestRate(rates, n) ==> rates[LowestRate(rates, n)].currentRate < rates[k].currentRate
    ensures forall k :: 0 <= k < HighestRate(rates, n) ==>
              rates[k].currentRate < rates[HighestRate(rates, n)].currentRate
  {
    if n > 1 {
      ChoiceIsFirst(rates, n - 1);
      LowestIsLeast(rates, n - 1);
      HighestIsGreatest(rates, n - 1);
    }
  }

  /** A rate per year: as many periods as fit in 365 days. */
  function YearlyRate(r: FundingRate): real {
    r.currentRate * (24.0 / r.intervalHours as real * 365.0)
  }

  /** A long at the first and a short at the second venue, earning the difference of their rates. */
  predicate IsCarryOf(cand: Candidate, pair: Pair, low: FundingRate, high: FundingRate) {
    && cand.arbType == FUNDING && cand.base == pair.base && cand.quote == pair.quote && cand.network.None?
    && cand.buyLeg.venue == low.venue && cand.sellLeg.venue == high.venue
    && cand.buyLeg.venueType == CEX && cand.sellLeg.venueType == CEX
    && cand.buyLeg.price == cand.sellLeg.price == 1.0
    && cand.fundingAnnualizedSpread == Some(YearlyRate(high) - YearlyRate(low))
    && cand.grossSpreadPct == (YearlyRate(high) - YearlyRate(low)) * 100.0
    && cand.fundingNextTime == Some(if low.nextFundingTime <= high.nextFundingTime then low.nextFundingTime
                                    else high.nextFundingTime)
  }

  /** What makes a carry between these two venues worth emitting. */
  predicate CarryEmitted(ctx: Context, pair: Pair, low: FundingRate, high: FundingRate) {
    && low.venue != high.venue
    && low.nextFundingTime >= ctx.now + 120.0 && high.nextFundingTime >= ctx.now + 120.0
    && (YearlyRate(high) - YearlyRate(low) >= FundingThreshold(ctx.cfg, ctx.rates, low.venue, high.venue)
        || RouteKey(FUNDING, pair.base, pair.quote, SortedPair(low.venue, high.venue), None) in ctx.activeRoutes)
  }

  /** The funding detector looks at two of the asset's online rates, the first that pays least and the first that
      pays most, and emits exactly when there are two rates at all and these two make a carry worth emitting:
      then one candidate, long where the rate is least and short where it is greatest. */
  lemma FundingEmitsIff(ctx: Context, m: Snapshot, pair: Pair, i: int, j: int)
    requires var rates := OnlineRates(ctx, m.funding, pair.base, |m.funding|);
      FirstLeast(rates, i) && FirstGreatest(rates, j)
    ensures var rates := OnlineRates(ctx, m.funding, pair.base, |m.funding|);
      var emitted := DetectFunding(ctx, m, pair);
      && (forall r :: r in rates <==> OnlineRate(ctx, m, pair.base, r))
      && (if |rates| >= 2 && CarryEmitted(ctx, pair, rates[i], rates[j])
          then |emitted| == 1 && IsCarryOf(emitted[0], pair, rates[i], rates[j]) else emitted == [])
  {
    var rates := OnlineRates(ctx, m.funding, pair.base, |m.funding|);
    forall r ensures r in rates <==> OnlineRate(ctx, m, pair.base, r) {
      OnlineRatesAreExact(ctx, m.funding, pair.base, |m.funding|, r);
    }
    LowestIsLeast(rates, |rates|);
    HighestIsGreatest(rates, |rates|);
    ChoiceIsFirst(rates, |rates|);
    assert i == LowestRate(rates, |rates|) && j == HighestRate(rates, |rates|);
    hide OnlineRates, LowestRate, HighestRate, FundingThreshold, CarryEmitted, IsCarryOf;
    CarryOfTwo(ctx, pair, rates);
  }

  lemma YearlyIsAnnualized(r: FundingRate)
    ensures YearlyRate(r) == Annualized(r)
  {
  }

  lemma CarryOfTwo(ctx: Context, pair: Pair, rates: seq<FundingRate>)
    requires rates != []
    ensures var low, high := rates[LowestRate(rates, |rates|)], rates[HighestRate(rates, |rates|)];
      var emitted := FundingOf(ctx, pair, rates);
      if |rates| >= 2 && CarryEmitted(ctx, pair, low, high)
      then |emitted| == 1 && IsCarryOf(emitted[0], pair, low, high) else emitted == []
  {
    var low, high := rates[LowestRate(rates, |rates|)], rates[HighestRate(rates, |rates|)];
    YearlyIsAnnualized(low);
    YearlyIsAnnualized(high);
    hide LowestRate, HighestRate, FundingThreshold, YearlyRate, Annualized;
  }

  /** With fewer than two rates nothing is emitted, and what is emitted is a carry between two online venues, bought
      where the current rate is least of all and sold where it is greatest. */
  lemma EmittedCarryIsExtreme(ctx: Context, m: Snapshot, pair: Pair, cand: Candidate)
    requires cand in DetectFunding(ctx, m, pair)
    ensures exists low, high :: OnlineRate(ctx, m, pair.base, low) && OnlineRate(ctx, m, pair.base, high)
              && IsCarryOf(cand, pair, low, high) && CarryEmitted(ctx, pair, low, high)
              && forall r :: OnlineRate(ctx, m, pair.base, r) ==> low.currentRate <= r.currentRate <= high.currentRate
  {
    hide CarryEmitted, IsCarryOf, OnlineRate;
    var rates := OnlineRates(ctx, m.funding, pair.base, |m.funding|);
    assert |rates| >= 2;
    LowestIsLeast(rates, |rates|);
    HighestIsGreatest(rates, |rates|);
    ChoiceIsFirst(rates, |rates|);
    var i, j := LowestRate(rates, |rates|), HighestRate(rates, |rates|);
    hide OnlineRates, LowestRate, HighestRate, FundingOf;
    FundingEmitsIff(ctx, m, pair, i, j);
    assert rates[i] in rates && rates[j] in rates;
  }

  // ── nothing live is left out ──

  lemma {:induction false} InCexScan(ctx: Context, c: Cache, pair: Pair, venues: seq<string>, q: CexQuote)
    ensures q in CexScan(ctx, c, pair, venues) <==> q.venue in venues && q in CexEntry(ctx, c, pair, q.venue)
  {
    hide GetPrice, GetBook;
    if venues != [] {
      var rest, last := venues[..|venues| - 1], venues[|venues| - 1];
      assert venues == rest + [last];
      InCexScan(ctx, c, pair, rest, q);
    }
  }

  lemma {:induction false} InDexScan(ctx: Context, c: Cache, pair: Pair, venues: seq<string>, b: DexBook)
    ensures b in DexScan(ctx, c, pair, venues) <==> b.venue in venues && b in DexEntry(ctx, c, pair, b.venue)
  {
    hide GetBook;
    if venues != [] {
      var rest, last := venues[..|venues| - 1], venues[|venues| - 1];
      assert venues == rest + [last];
      InDexScan(ctx, c, pair, rest, b);
    }
  }

  /** The book of a key is there and, unless it is a pool's, young enough. */
  predicate FreshBook(ctx: Context, c: Cache, key: Key) {
    key in c.books && (c.books[key].poolAddress.Some? || ctx.now - c.books[key].receivedAt <= ctx.maxAgeCexBook)
  }

  predicate FreshPrice(ctx: Context, c: Cache, key: Key) {
    key in c.prices
    && ctx.now - c.prices[key].receivedAt
       <= (if c.prices[key].source in {RPC, QUOTE} then ctx.maxAgeDexPrice else ctx.maxAgeCexPrice)
  }

  /** The exchange scan is exactly the online exchanges whose price and book of the pair are fresh, each with the
      price the cache holds. */
  lemma ScanIsExact(cacheCfg: CacheConfig, ctx: Context, c: Cache, pair: Pair, q: CexQuote)
    requires Valid(cacheCfg, c)
    ensures q in OnlineCexPrices(ctx, c, pair) <==>
      && q.venue in ctx.venues && ctx.venues[q.venue].venueType == CEX && q.venue in ctx.online
      && FreshPrice(ctx, c, (q.venue, pair)) && FreshBook(ctx, c, (q.venue, pair))
      && q.quote == c.prices[(q.venue, pair)]
  {
    InCexScan(ctx, c, pair, c.VenuesOf(pair), q);
    hide CexScan;
    assert q.venue in c.VenuesOf(pair) <==> c.Holds((q.venue, pair));
  }

  /** And the pool scan exactly the online pools with a base reserve, whose reserves do not age here. */
  lemma PoolScanIsExact(cacheCfg: CacheConfig, ctx: Context, c: Cache, pair: Pair, b: DexBook)
    requires Valid(cacheCfg, c)
    ensures b in OnlineDexBooks(ctx, c, pair) <==>
      && b.venue in ctx.venues && ctx.venues[b.venue].venueType == DEX && b.venue in ctx.online
      && FreshBook(ctx, c, (b.venue, pair)) && b.book == c.books[(b.venue, pair)]
      && b.book.reserveBase.Some? && b.book.reserveBase.value != 0.0
  {
    InDexScan(ctx, c, pair, c.VenuesOf(pair), b);
    hide DexScan;
    assert b.venue in c.VenuesOf(pair) <==> c.Holds((b.venue, pair));
  }

  // ── what each detector compares ──

  lemma {:induction false} PoolsAreExact(ctx: Context, books: seq<DexBook>, n: nat, p: Pool)
    requires n <= |books|
    ensures p in PricedPools(ctx, books, n) <==>
              exists b :: 0 <= b < n && Spot(books[b].book) > 0.0 && p == PoolOf(ctx, books[b])
    ensures p in BridgeablePools(ctx, books, n) <==>
              OnNamedNetwork(p) && exists b :: 0 <= b < n && Spot(books[b].book) > 0.0 && p == PoolOf(ctx, books[b])
    decreases n
  {
    hide Spot;
    if n > 0 {
      PoolsAreExact(ctx, books, n - 1, p);
    }
  }

  /** What a pool is to the detectors: its spot is what its reserves say, zero with the base reserve missing or empty,
      and its network that of its venue, where it has a name. */
  lemma PoolSays(ctx: Context, b: DexBook)
    ensures var p := PoolOf(ctx, b);
      && p.venue == b.venue && p.address == b.book.poolAddress
      && (forall base: real, quote: real | b.book.reserveBase == Some(base) && b.book.reserveQuote == Some(quote) ::
            p.spot == if base == 0.0 then 0.0 else quote / base)
      && (b.book.reserveBase.None? || b.book.reserveQuote.None? ==> p.spot == 0.0)
      && (OnNamedNetwork(p) <==>
            exists kind: VenueType, net: string :: b.venue in ctx.venues && net != ""
                                                   && ctx.venues[b.venue] == VenueInfo(kind, Some(net)))
  {
    if OnNamedNetwork(PoolOf(ctx, b)) {
      assert ctx.venues[b.venue]
             == VenueInfo(ctx.venues[b.venue].venueType, Some(ctx.venues[b.venue].network.value));
    }
  }

  /** A pool the scan shows, at a positive price. */
  ghost predicate ShownPool(ctx: Context, c: Cache, pair: Pair, p: Pool) {
    exists b :: b in OnlineDexBooks(ctx, c, pair) && Spot(b.book) > 0.0 && p == PoolOf(ctx, b)
  }

  lemma ShownPoolIff(ctx: Context, c: Cache, pair: Pair, p: Pool)
    ensures var books := OnlineDexBooks(ctx, c, pair);
      && (p in PricedPools(ctx, books, |books|) <==> ShownPool(ctx, c, pair, p))
      && (p in BridgeablePools(ctx, books, |books|) <==> ShownPool(ctx, c, pair, p) && OnNamedNetwork(p))
  {
    hide Spot, DexScan, PoolOf, OnNamedNetwork;
    var books := OnlineDexBooks(ctx, c, pair);
    PoolsAreExact(ctx, books, |books|, p);
    if ShownPool(ctx, c, pair, p) {
      var b :| b in books && Spot(b.book) > 0.0 && p == PoolOf(ctx, b);
      var i :| 0 <= i < |books| && books[i] == b;
    }
  }

  /** The exchange detector leaves ambiguous tickers alone and else looks at the whole exchange scan. */
  lemma CexCexLooksAt(ctx: Context, m: Snapshot, pair: Pair)
    ensures Detect(CEX_CEX, ctx, m, pair)
            == if pair.base in ctx.cfg.ambiguousTickers then []
               else CexCexOf(ctx, pair, OnlineCexPrices(ctx, m.cache, pair))
  {
  }

  /** Between exchanges and pools every one of the scan is tried against every priced pool, for verified coins. */
  lemma CexDexLooksAt(ctx: Context, m: Snapshot, pair: Pair, cand: Candidate)
    ensures cand in Detect(CEX_DEX, ctx, m, pair) <==>
      && pair.base in ctx.verified
      && exists q, p :: q in OnlineCexPrices(ctx, m.cache, pair) && ShownPool(ctx, m.cache, pair, p)
                        && cand in CexDexOne(ctx, pair, q, p)
  {
    hide CexScan, DexScan, CexDexOne, CexDexRows, ShownPool, PricedPools;
    var prices, books := OnlineCexPrices(ctx, m.cache, pair), OnlineDexBooks(ctx, m.cache, pair);
    var pools := PricedPools(ctx, books, |books|);
    InCexDexRows(ctx, pair, prices, pools, |prices|, cand);
    forall p ensures p in pools <==> ShownPool(ctx, m.cache, pair, p) {
      ShownPoolIff(ctx, m.cache, pair, p);
    }
    NoBooksNoPools(ctx, books);
    if q, p :| q in prices && p in pools && cand in CexDexOne(ctx, pair, q, p) {
      var a :| 0 <= a < |prices| && prices[a] == q;
      var b :| 0 <= b < |pools| && pools[b] == p;
      assert cand in CexDexOne(ctx, pair, prices[a], pools[b]);
    }
    if a, b :| 0 <= a < |prices| && 0 <= b < |pools| && cand in CexDexOne(ctx, pair, prices[a], pools[b]) {
      assert prices[a] in prices && pools[b] in pools;
    }
  }

  lemma {:induction false} NoBooksNoPools(ctx: Context, books: seq<DexBook>)
    ensures |PricedPools(ctx, books, |books|)| <= |books| && |BridgeablePools(ctx, books, |books|)| <= |books|
  {
    PoolCount(ctx, books, |books|);
  }

  lemma {:induction false} PoolCount(ctx: Context, books: seq<DexBook>, n: nat)
    requires n <= |books|
    ensures |PricedPools(ctx, books, n)| <= n && |BridgeablePools(ctx, books, n)| <= n
  {
    if n > 0 {
      PoolCount(ctx, books, n - 1);
    }
  }

  /** Across networks every two shown pools on different named networks are tried, in the direction that buys the
      cheaper one, for verified coins. */
  lemma CrossLooksAt(ctx: Context, m: Snapshot, pair: Pair, cand: Candidate)
    ensures cand in Detect(CROSS_CHAIN, ctx, m, pair) <==>
      && pair.base in ctx.verified
      && exists p, q :: ShownPool(ctx, m.cache, pair, p) && ShownPool(ctx, m.cache, pair, q)
                        && OnNamedNetwork(p) && OnNamedNetwork(q) && p.network != q.network
                        && cand in CrossDirected(ctx, pair, p, q)
  {
    hide DexScan, CrossDirected, PoolRows, ShownPool, BridgeablePools, PricedPools, OnNamedNetwork;
    var books := OnlineDexBooks(ctx, m.cache, pair);
    var pools := BridgeablePools(ctx, books, |books|);
    forall p ensures p in pools <==> ShownPool(ctx, m.cache, pair, p) && OnNamedNetwork(p) {
      ShownPoolIff(ctx, m.cache, pair, p);
    }
    forall i | 0 <= i < |pools| ensures pools[i].spot > 0.0 {
      assert pools[i] in pools;
      ShownIsPriced(ctx, m.cache, pair, pools[i]);
    }
    HalfLoopIsDirectedLoop(ctx, pair, pools, cand);
    NoBooksNoPools(ctx, books);
    if p, q :| p in pools && q in pools && p.network != q.network && cand in CrossDirected(ctx, pair, p, q) {
      var a :| 0 <= a < |pools| && pools[a] == p;
      var b :| 0 <= b < |pools| && pools[b] == q;
      assert a != b;
      assert cand in CrossDirected(ctx, pair, pools[a], pools[b]);
    }
    if a, b :| 0 <= a < |pools| && 0 <= b < |pools| && pools[a].network != pools[b].network
               && cand in CrossDirected(ctx, pair, pools[a], pools[b]) {
      assert pools[a] in pools && pools[b] in pools && a != b;
    }
  }

  lemma ShownIsPriced(ctx: Context, c: Cache, pair: Pair, p: Pool)
    requires ShownPool(ctx, c, pair, p)
    ensures p.spot > 0.0
  {
  }

  /** On one network every two pools of the list are tried once, the cheaper bought; a candidate is emitted exactly
      when two of them make it. */
  lemma DexDexLooksAt(ctx: Context, m: Snapshot, pair: Pair, cand: Candidate)
    ensures var books := OnlineDexBooks(ctx, m.cache, pair);
      var pools := PricedPools(ctx, books, |books|);
      && (forall p :: p in pools <==> ShownPool(ctx, m.cache, pair, p))
      && (cand in Detect(DEX_DEX, ctx, m, pair) <==>
            pair.base in ctx.verified
            && exists a, b :: 0 <= a < b < |pools| && cand in DexDexOne(ctx, pair, pools[a], pools[b]))
  {
    hide DexScan, DexDexOne, PoolRows, ShownPool, PricedPools;
    var books := OnlineDexBooks(ctx, m.cache, pair);
    var pools := PricedPools(ctx, books, |books|);
    forall p ensures p in pools <==> ShownPool(ctx, m.cache, pair, p) {
      ShownPoolIff(ctx, m.cache, pair, p);
    }
    InPoolRows(DEX_DEX, ctx, pair, pools, |pools|, cand);
    NoBooksNoPools(ctx, books);
    if a, b :| 0 <= a < b < |pools| && cand in DexDexOne(ctx, pair, pools[a], pools[b]) {
      assert cand in PoolPair(DEX_DEX, ctx, pair, pools[a], pools[b]);
    }
    if a, b :| 0 <= a < |pools| && a < b < |pools| && cand in PoolPair(DEX_DEX, ctx, pair, pools[a], pools[b]) {
      assert cand in DexDexOne(ctx, pair, pools[a], pools[b]);
    }
  }

  // ── every emitted candidate rests on live data ──

  /** The venue is online and of the leg's kind, and its cached data is present and young enough. */
  predicate LiveVenue(ctx: Context, c: Cache, pair: Pair, leg: LegRef) {
    var key := (leg.venue, pair);
    && leg.venue in ctx.online && leg.venue in ctx.venues && ctx.venues[leg.venue].venueType == leg.venueType
    && key in c.books && (c.books[key].poolAddress.None? ==> ctx.now <= c.books[key].receivedAt + ctx.maxAgeCexBook)
    && (leg.venueType == CEX ==>
          key in c.prices
          && ctx.now <= c.prices[key].receivedAt
            + (if c.prices[key].source in {RPC, QUOTE} then ctx.maxAgeDexPrice else ctx.maxAgeCexPrice))
  }

  /** The leg carries the price the cache shows for its side. */
  predicate QuotedPrice(c: Cache, pair: Pair, leg: LegRef, buying: bool) {
    var key := (leg.venue, pair);
    if leg.venueType == CEX then key in c.prices && leg.price == if buying then c.prices[key].ask else c.prices[key].bid
    else key in c.books && leg.price == Spot(c.books[key]) && leg.price > 0.0
  }

  predicate Gated(ctx: Context, c: Cache, pair: Pair, cand: Candidate) {
    && LiveVenue(ctx, c, pair, cand.buyLeg) && LiveVenue(ctx, c, pair, cand.sellLeg)
    && QuotedPrice(c, pair, cand.buyLeg, true) && QuotedPrice(c, pair, cand.sellLeg, false)
    && cand.base == pair.base && cand.quote == pair.quote
    && cand.grossSpreadPct == GrossPct(cand.buyLeg.price, cand.sellLeg.price) > 0.0
  }

  ghost predicate QuotesLive(ctx: Context, c: Cache, pair: Pair, prices: seq<CexQuote>) {
    forall q :: q in prices ==>
      var leg := LegRef(q.venue, CEX, q.quote.ask, None, None);
      LiveVenue(ctx, c, pair, leg) && q.quote == c.prices[(q.venue, pair)]
  }

  ghost predicate PoolsLive(ctx: Context, c: Cache, pair: Pair, pools: seq<Pool>) {
    forall p :: p in pools ==> LiveVenue(ctx, c, pair, p.Leg()) && QuotedPrice(c, pair, p.Leg(), true)
  }

  lemma {:induction false} CexScanLive(ctx: Context, c: Cache, pair: Pair, venues: seq<string>)
    ensures QuotesLive(ctx, c, pair, CexScan(ctx, c, pair, venues))
  {
    if venues != [] {
      CexScanLive(ctx, c, pair, venues[..|venues| - 1]);
    }
  }

  lemma {:induction false} DexScanLive(ctx: Context, c: Cache, pair: Pair, venues: seq<string>)
    ensures forall b :: b in DexScan(ctx, c, pair, venues) ==>
      LiveVenue(ctx, c, pair, PoolOf(ctx, b).Leg()) && b.book == c.books[(b.venue, pair)]
  {
    if venues != [] {
      DexScanLive(ctx, c, pair, venues[..|venues| - 1]);
    }
  }

  lemma {:induction false} PoolsFromBooks(ctx: Context, books: seq<DexBook>, n: nat)
    requires n <= |books|
    ensures forall p :: p in PricedPools(ctx, books, n) || p in BridgeablePools(ctx, books, n) ==>
      p.spot > 0.0 && exists b :: b in books && p == PoolOf(ctx, b)
    decreases n
  {
    if n > 0 {
      PoolsFromBooks(ctx, books, n - 1);
      assert books[n - 1] in books;
    }
  }

  lemma PoolsAreLive(ctx: Context, c: Cache, pair: Pair)
    ensures var books := OnlineDexBooks(ctx, c, pair);
      PoolsLive(ctx, c, pair, PricedPools(ctx, books, |books|))
        && PoolsLive(ctx, c, pair, BridgeablePools(ctx, books, |books|))
  {
    hide DexScan, PricedPools, BridgeablePools, LiveVenue;
    var books := OnlineDexBooks(ctx, c, pair);
    DexScanLive(ctx, c, pair, c.VenuesOf(pair));
    PoolsFromBooks(ctx, books, |books|);
    forall p | p in PricedPools(ctx, books, |books|) || p in BridgeablePools(ctx, books, |books|)
      ensures LiveVenue(ctx, c, pair, p.Leg()) && QuotedPrice(c, pair, p.Leg(), true)
    {
      var b :| b in books && p == PoolOf(ctx, b);
      LiveHasBook(ctx, c, pair, p.Leg());
    }
  }

  lemma LiveHasBook(ctx: Context, c: Cache, pair: Pair, leg: LegRef)
    requires LiveVenue(ctx, c, pair, leg)
    ensures (leg.venue, pair) in c.books
  {
  }

  lemma CexCexGated(ctx: Context, c: Cache, pair: Pair, prices: seq<CexQuote>)
    requires QuotesLive(ctx, c, pair, prices)
    ensures forall cand :: cand in CexCexOf(ctx, pair, prices) ==> Gated(ctx, c, pair, cand) && cand.arbType == CEX_CEX
  {
    hide BestBuy, BestSell, ClearsEconomicFloor, GrossPct;
  }

  lemma CexDexOneGated(ctx: Context, c: Cache, pair: Pair, q: CexQuote, p: Pool)
    requires QuotesLive(ctx, c, pair, [q]) && PoolsLive(ctx, c, pair, [p])
    ensures forall cand :: cand in CexDexOne(ctx, pair, q, p) ==> Gated(ctx, c, pair, cand) && cand.arbType == CEX_DEX
  {
    hide ClearsEconomicFloor, GrossPct;
    assert q in [q] && p in [p];
  }

  lemma {:induction false} InCexDexRow(ctx: Context, pair: Pair, q: CexQuote, pools: seq<Pool>, n: nat, cand: Candidate)
    requires n <= |pools|
    ensures cand in CexDexRow(ctx, pair, q, pools, n)
            <==> exists b :: 0 <= b < n && cand in CexDexOne(ctx, pair, q, pools[b])
    decreases n
  {
    hide CexDexOne;
    if n > 0 {
      InCexDexRow(ctx, pair, q, pools, n - 1, cand);
    }
  }

  lemma {:induction false} InCexDexRows(ctx: Context, pair: Pair, prices: seq<CexQuote>, pools: seq<Pool>, n: nat,
                                        cand: Candidate)
    requires n <= |prices|
    ensures cand in CexDexRows(ctx, pair, prices, pools, n)
            <==> exists a, b :: 0 <= a < n && 0 <= b < |pools| && cand in CexDexOne(ctx, pair, prices[a], pools[b])
    decreases n
  {
    hide CexDexOne, CexDexRow;
    if n > 0 {
      InCexDexRows(ctx, pair, prices, pools, n - 1, cand);
      InCexDexRow(ctx, pair, prices[n - 1], pools, |pools|, cand);
    }
  }

  lemma PoolPairGated(kind: ArbType, ctx: Context, c: Cache, pair: Pair, a: Pool, b: Pool)
    requires (kind == DEX_DEX || kind == CROSS_CHAIN) && PoolsLive(ctx, c, pair, [a, b])
    ensures forall cand :: cand in PoolPair(kind, ctx, pair, a, b) ==> Gated(ctx, c, pair, cand) && cand.arbType == kind
  {
    hide ClearsEconomicFloor, GrossPct;
    assert a in [a, b] && b in [a, b];
  }

  /** Whatever a spot detector emits for a symbol: both venues are online, of the right kind and freshly
      quoted; the prices are those the cache shows, the ask or spot bought and the bid or spot sold; and
      the spread is positive and computed from them. */
  lemma EmittedIsGated(kind: ArbType, ctx: Context, m: Snapshot, pair: Pair, cand: Candidate)
    requires kind != FUNDING && cand in Detect(kind, ctx, m, pair)
    ensures cand.arbType == kind && Gated(ctx, m.cache, pair, cand)
  {
    hide CexCexOf, CexDexRows, PoolRows, PricedPools, BridgeablePools, CexScan, Gated, PoolPair, CexDexOne;
    var c := m.cache;
    var prices, books := OnlineCexPrices(ctx, c, pair), OnlineDexBooks(ctx, c, pair);
    CexScanLive(ctx, c, pair, c.VenuesOf(pair));
    PoolsAreLive(ctx, c, pair);
    if kind == CEX_CEX {
      CexCexGated(ctx, c, pair, prices);
    } else if kind == CEX_DEX {
      var pools := PricedPools(ctx, books, |books|);
      InCexDexRows(ctx, pair, prices, pools, |prices|, cand);
      var a, b :| 0 <= a < |prices| && 0 <= b < |pools| && cand in CexDexOne(ctx, pair, prices[a], pools[b]);
      assert prices[a] in prices && pools[b] in pools;
      CexDexOneGated(ctx, c, pair, prices[a], pools[b]);
    } else {
      var pools := if kind == DEX_DEX then PricedPools(ctx, books, |books|) else BridgeablePools(ctx, books, |books|);
      InPoolRows(kind, ctx, pair, pools, |pools|, cand);
      var a, b :| 0 <= a < |pools| && a < b < |pools| && cand in PoolPair(kind, ctx, pair, pools[a], pools[b]);
      assert pools[a] in pools && pools[b] in pools;
      PoolPairGated(kind, ctx, c, pair, pools[a], pools[b]);
    }
  }
}
