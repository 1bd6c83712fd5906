/** The five detectors over the market cache (src/scanner/detectors/): what each emits, as functions,
    and what that output means. */
module Detection {
  import opened Prelude
  import opened Market
  import opened Config
  import opened Mathx
  import opened Signals
  import opened ProfitEngine
  import opened EconomicFloor
  import opened MarketCache

  datatype VenueInfo = VenueInfo(venueType: VenueType, network: Option<string>)

  datatype BridgeRoute = BridgeRoute(name: string, flatFeeUsd: real, timeSec: int)

  /** Everything a detection pass reads besides market data. */
  datatype Context = Context(
    cfg: ScannerConfig,
    rates: map<string, real>,
    venues: map<string, VenueInfo>,
    online: set<string>,
    verified: set<string>,
    activeRoutes: set<RouteKey>,
    bridges: map<(string, string), BridgeRoute>,
    now: real,
    maxAgeCexPrice: real,
    maxAgeDexPrice: real,
    maxAgeCexBook: real)
  {
    predicate IsVenueOf(venue: string, vt: VenueType) {
      venue in venues && venues[venue].venueType == vt
    }

    function NetworkOf(venue: string): Option<string> {
      if venue in venues then venues[venue].network else None
    }

    /** Whether this route has an active published signal, which exempts it from economic pruning. */
    predicate IsActiveRoute(arbType: ArbType, pair: Pair, buyVenue: string, sellVenue: string,
                            network: Option<string>) {
      activeRoutes != {}
      && RouteKey(arbType, pair.base, pair.quote, SortedPair(buyVenue, sellVenue), network) in activeRoutes
    }
  }

  /** Market data: the cache, and the funding rates with their base asset, in the order first written. */
  datatype Snapshot = Snapshot(cache: Cache, funding: seq<(string, FundingRate)>)

  // ── freshness-aware reads ──

  function GetPrice(ctx: Context, c: Cache, key: Key): Option<PriceQuote> {
    if key !in c.prices then None
    else
      var q := c.prices[key];
      var maxAge := if q.source == RPC || q.source == QUOTE then ctx.maxAgeDexPrice else ctx.maxAgeCexPrice;
      if ctx.now - q.receivedAt > maxAge then None else Some(q)
  }

  function GetBook(ctx: Context, c: Cache, key: Key): Option<OrderBook> {
    if key !in c.books then None
    else if c.books[key].poolAddress.None? && ctx.now - c.books[key].receivedAt > ctx.maxAgeCexBook then None
    else Some(c.books[key])
  }

  // ── scans ──

  datatype CexQuote = CexQuote(venue: string, quote: PriceQuote)
  datatype DexBook = DexBook(venue: string, book: OrderBook)

  /** What one venue contributes to the exchange scan: nothing unless it is an online exchange with a
      fresh price and a fresh book. */
  function CexEntry(ctx: Context, c: Cache, pair: Pair, venue: string): seq<CexQuote> {
    var quote := GetPrice(ctx, c, (venue, pair));
    if ctx.IsVenueOf(venue, CEX) && venue in ctx.online && quote.Some? && GetBook(ctx, c, (venue, pair)).Some?
    then [CexQuote(venue, quote.value)] else []
  }

  function DexEntry(ctx: Context, c: Cache, pair: Pair, venue: string): seq<DexBook> {
    var book := GetBook(ctx, c, (venue, pair));
    if ctx.IsVenueOf(venue, DEX) && venue in ctx.online && book.Some? && Truthy(book.value.reserveBase)
    then [DexBook(venue, book.value)] else []
  }

  function CexScan(ctx: Context, c: Cache, pair: Pair, venues: seq<string>): seq<CexQuote> {
    if venues == [] then []
    else CexScan(ctx, c, pair, venues[..|venues| - 1]) + CexEntry(ctx, c, pair, venues[|venues| - 1])
  }

  function DexScan(ctx: Context, c: Cache, pair: Pair, venues: seq<string>): seq<DexBook> {
    if venues == [] then []
    else DexScan(ctx, c, pair, venues[..|venues| - 1]) + DexEntry(ctx, c, pair, venues[|venues| - 1])
  }

  function OnlineCexPrices(ctx: Context, c: Cache, pair: Pair): seq<CexQuote> {
    CexScan(ctx, c, pair, c.VenuesOf(pair))
  }

  function OnlineDexBooks(ctx: Context, c: Cache, pair: Pair): seq<DexBook> {
    DexScan(ctx, c, pair, c.VenuesOf(pair))
  }

  // ── shared pieces ──

  function GrossPct(buyPrice: real, sellPrice: real): real {
    if buyPrice <= 0.0 then 0.0 else (sellPrice - buyPrice) / buyPrice * 100.0
  }

  function Spot(book: OrderBook): real {
    if Truthy(book.reserveBase) then OrZero(book.reserveQuote) / book.reserveBase.value else 0.0
  }

  /** A two-leg candidate without bridge or funding details. */
  function SpotCandidate(arbType: ArbType, pair: Pair, buy: LegRef, sell: LegRef, gross: real,
                         network: Option<string>): Candidate {
    Candidate(arbType, pair.base, pair.quote, buy, sell, gross, network, None, None, None, None, None)
  }

  // ── CEX-CEX ──

  /** Index of the first of n quotes with the least ask. */
  function BestBuy(prices: seq<CexQuote>, n: nat): (r: Option<nat>)
    requires n <= |prices|
    ensures r.Some? ==> r.value < n
  {
    if n == 0 then None
    else
      var best := BestBuy(prices, n - 1);
      if best.None? || prices[n - 1].quote.ask < prices[best.value].quote.ask then Some(n - 1) else best
  }

  /** Index of the first of n quotes with the greatest bid above zero. */
  function BestSell(prices: seq<CexQuote>, n: nat): (r: Option<nat>)
    requires n <= |prices|
    ensures r.Some? ==> r.value < n
  {
    if n == 0 then None
    else
      var best := BestSell(prices, n - 1);
      var bar := if best.None? then 0.0 else prices[best.value].quote.bid;
      if prices[n - 1].quote.bid > bar then Some(n - 1) else best
  }

  function CexCexCandidate(pair: Pair, buy: CexQuote, sell: CexQuote): Candidate {
    SpotCandidate(CEX_CEX, pair, LegRef(buy.venue, CEX, buy.quote.ask, None, None),
                  LegRef(sell.venue, CEX, sell.quote.bid, None, None), GrossPct(buy.quote.ask, sell.quote.bid), None)
  }

  predicate Implausible(cfg: ScannerConfig, gross: real) {
    cfg.maxPlausibleCexSpreadPct > 0.0 && gross > cfg.maxPlausibleCexSpreadPct
  }

  function CexCexOf(ctx: Context, pair: Pair, prices: seq<CexQuote>): seq<Candidate> {
    var buy, sell := BestBuy(prices, |prices|), BestSell(prices, |prices|);
    if |prices| < 2 || buy.None? || sell.None? || prices[buy.value].venue == prices[sell.value].venue then []
    else
      var b, s := prices[buy.value], prices[sell.value];
      var gross := GrossPct(b.quote.ask, s.quote.bid);
      if gross <= 0.0 || Implausible(ctx.cfg, gross) then []
      else if !ClearsEconomicFloor(ctx.cfg, ctx.rates, gross, b.venue, CEX, s.venue, CEX, pair.quote, 0.0)
              && !ctx.IsActiveRoute(CEX_CEX, pair, b.venue, s.venue, None) then []
      else [CexCexCandidate(pair, b, s)]
  }

  function DetectCexCex(ctx: Context, m: Snapshot, pair: Pair): seq<Candidate> {
    if pair.base in ctx.cfg.ambiguousTickers then [] else CexCexOf(ctx, pair, OnlineCexPrices(ctx, m.cache, pair))
  }

  // ── pools ──

  datatype Pool = Pool(venue: string, network: Option<string>, spot: real, address: Option<string>) {
    function Leg(): LegRef {
      LegRef(venue, DEX, spot, network, address)
    }
  }

  function PoolOf(ctx: Context, b: DexBook): Pool {
    Pool(b.venue, ctx.NetworkOf(b.venue), Spot(b.book), b.book.poolAddress)
  }

  /** The pools with a positive spot price, among the first n books. */
  function PricedPools(ctx: Context, books: seq<DexBook>, n: nat): seq<Pool>
    requires n <= |books|
  {
    if n == 0 then []
    else PricedPools(ctx, books, n - 1) + (if Spot(books[n - 1].book) > 0.0 then [PoolOf(ctx, books[n - 1])] else [])
  }

  predicate OnNamedNetwork(pool: Pool) {
    pool.network.Some? && pool.network.value != ""
  }

  /** Of those, the pools on a named network. */
  function BridgeablePools(ctx: Context, books: seq<DexBook>, n: nat): seq<Pool>
    requires n <= |books|
  {
    if n == 0 then []
    else
      var pool := PoolOf(ctx, books[n - 1]);
      BridgeablePools(ctx, books, n - 1) + (if OnNamedNetwork(pool) && pool.spot > 0.0 then [pool] else [])
  }

  // ── CEX-DEX ──

  function CexDexOne(ctx: Context, pair: Pair, c: CexQuote, p: Pool): seq<Candidate> {
    var grossA, grossB := GrossPct(c.quote.ask, p.spot), GrossPct(p.spot, c.quote.bid);
    var gas := ctx.cfg.gasEstimateUsd;
    if grossA >= grossB && grossA > 0.0 then
      if !ClearsEconomicFloor(ctx.cfg, ctx.rates, grossA, c.venue, CEX, p.venue, DEX, pair.quote, gas)
         && !ctx.IsActiveRoute(CEX_DEX, pair, c.venue, p.venue, p.network) then []
      else [SpotCandidate(CEX_DEX, pair, LegRef(c.venue, CEX, c.quote.ask, None, None), p.Leg(), grossA, p.network)]
    else if grossB <= 0.0 then []
    else if !ClearsEconomicFloor(ctx.cfg, ctx.rates, grossB, p.venue, DEX, c.venue, CEX, pair.quote, gas)
            && !ctx.IsActiveRoute(CEX_DEX, pair, p.venue, c.venue, p.network) then []
    else [SpotCandidate(CEX_DEX, pair, p.Leg(), LegRef(c.venue, CEX, c.quote.bid, None, None), grossB, p.network)]
  }

  /** One exchange against the first n pools. */
  function CexDexRow(ctx: Context, pair: Pair, c: CexQuote, pools: seq<Pool>, n: nat): seq<Candidate>
    requires n <= |pools|
    decreases n
  {
    if n == 0 then [] else CexDexRow(ctx, pair, c, pools, n - 1) + CexDexOne(ctx, pair, c, pools[n - 1])
  }

  function CexDexRows(ctx: Context, pair: Pair, prices: seq<CexQuote>, pools: seq<Pool>, n: nat): seq<Candidate>
    requires n <= |prices|
    decreases n
  {
    if n == 0 then []
    else CexDexRows(ctx, pair, prices, pools, n - 1) + CexDexRow(ctx, pair, prices[n - 1], pools, |pools|)
  }

  function DetectCexDex(ctx: Context, m: Snapshot, pair: Pair): seq<Candidate> {
    var prices, books := OnlineCexPrices(ctx, m.cache, pair), OnlineDexBooks(ctx, m.cache, pair);
    if pair.base !in ctx.verified || prices == [] || books == [] then []
    else CexDexRows(ctx, pair, prices, PricedPools(ctx, books, |books|), |prices|)
  }

  // ── pools against pools ──

  /** Same network: buy the strictly cheaper pool, sell the other. */
  function DexDexOne(ctx: Context, pair: Pair, a: Pool, b: Pool): seq<Candidate> {
    if a.network != b.network then []
    else
      var (buy, sell) := if a.spot < b.spot then (a, b) else (b, a);
      var gross := GrossPct(buy.spot, sell.spot);
      if gross <= 0.0 then []
      else if !ClearsEconomicFloor(ctx.cfg, ctx.rates, gross, buy.venue, DEX, sell.venue, DEX, pair.quote,
        ctx.cfg.gasEstimateUsd)
              && !ctx.IsActiveRoute(DEX_DEX, pair, buy.venue, sell.venue, buy.network) then []
      else [SpotCandidate(DEX_DEX, pair, buy.Leg(), sell.Leg(), gross, buy.network)]
  }

  /** Different networks, one direction: nothing without a bridge from the buy to the sell network. */
  function CrossDirected(ctx: Context, pair: Pair, buy: Pool, sell: Pool): seq<Candidate> {
    var gross := GrossPct(buy.spot, sell.spot);
    if gross <= 0.0 || buy.network.None? || sell.network.None? then []
    else if (buy.network.value, sell.network.value) !in ctx.bridges then []
    else
      var route := ctx.bridges[(buy.network.value, sell.network.value)];
      if !ClearsEconomicFloor(ctx.cfg, ctx.rates, gross, buy.venue, DEX, sell.venue, DEX, pair.quote,
                              route.flatFeeUsd + ctx.cfg.gasEstimateUsd)
         && !ctx.IsActiveRoute(CROSS_CHAIN, pair, buy.venue, sell.venue, None) then []
      else [Candidate(CROSS_CHAIN, pair.base, pair.quote, buy.Leg(), sell.Leg(), gross, None,
                      Some(route.name), Some(route.flatFeeUsd), Some(route.timeSec), None, None)]
  }

  function CrossOne(ctx: Context, pair: Pair, a: Pool, b: Pool): seq<Candidate> {
    if a.network == b.network then []
    else if a.spot <= b.spot then CrossDirected(ctx, pair, a, b)
    else CrossDirected(ctx, pair, b, a)
  }

  function PoolPair(kind: ArbType, ctx: Context, pair: Pair, a: Pool, b: Pool): seq<Candidate> {
    if kind == DEX_DEX then DexDexOne(ctx, pair, a, b) else CrossOne(ctx, pair, a, b)
  }

  /** Pool i against pools i+1 .. j-1. */
  function PoolRow(kind: ArbType, ctx: Context, pair: Pair, pools: seq<Pool>, i: nat, j: nat): seq<Candidate>
    requires i < j <= |pools|
    decreases j
  {
    if j == i + 1 then []
      else PoolRow(kind, ctx, pair, pools, i, j - 1) + PoolPair(kind, ctx, pair, pools[i], pools[j - 1])
  }

  /** Every unordered pair whose first pool is among the first i. */
  function PoolRows(kind: ArbType, ctx: Context, pair: Pair, pools: seq<Pool>, i: nat): seq<Candidate>
    requires i <= |pools|
    decreases i
  {
    if i == 0 then [] else PoolRows(kind, ctx, pair, pools, i - 1) + PoolRow(kind, ctx, pair, pools, i - 1, |pools|)
  }

  function DetectDexDex(ctx: Context, m: Snapshot, pair: Pair): seq<Candidate> {
    var books := OnlineDexBooks(ctx, m.cache, pair);
    if pair.base !in ctx.verified || |books| < 2 then []
    else var pools := PricedPools(ctx, books, |books|); PoolRows(DEX_DEX, ctx, pair, pools, |pools|)
  }

  function DetectCrossChain(ctx: Context, m: Snapshot, pair: Pair): seq<Candidate> {
    var books := OnlineDexBooks(ctx, m.cache, pair);
    if pair.base !in ctx.verified || |books| < 2 then []
    else var pools := BridgeablePools(ctx, books, |books|); PoolRows(CROSS_CHAIN, ctx, pair, pools, |pools|)
  }

  // ── funding ──

  /** The online rates of an asset among the first n entries. */
  function OnlineRates(ctx: Context, funding: seq<(string, FundingRate)>, base: string, n: nat): seq<FundingRate>
    requires n <= |funding|
  {
    if n == 0 then []
    else
      OnlineRates(ctx, funding, base, n - 1)
      + (if funding[n - 1].0 == base && funding[n - 1].1.venue in ctx.online then [funding[n - 1].1] else [])
  }

  /** First index of the least current rate among the first n. */
  function LowestRate(rates: seq<FundingRate>, n: nat): (r: nat)
    requires 0 < n <= |rates|
    ensures r < n
  {
    if n == 1 then 0
    else
      var best := LowestRate(rates, n - 1);
      if rates[n - 1].currentRate < rates[best].currentRate then n - 1 else best
  }

  function HighestRate(rates: seq<FundingRate>, n: nat): (r: nat)
    requires 0 < n <= |rates|
    ensures r < n
  {
    if n == 1 then 0
    else
      var best := HighestRate(rates, n - 1);
      if rates[n - 1].currentRate > rates[best].currentRate then n - 1 else best
  }

  function PeriodsPerYear(interval: Hours): real {
    24.0 / interval as real * 365.0
  }

  function Annualized(f: FundingRate): real {
    f.currentRate * PeriodsPerYear(f.intervalHours)
  }

  const MIN_LEAD_SEC := 120.0

  function FundingCandidate(pair: Pair, low: FundingRate, high: FundingRate): Candidate {
    var spread := Annualized(high) - Annualized(low);
    Candidate(FUNDING, pair.base, pair.quote,
              LegRef(low.venue, CEX, 1.0, None, None), LegRef(high.venue, CEX, 1.0, None, None), spread * 100.0,
              None, None, None, None, Some(spread), Some(MinReal(low.nextFundingTime, high.nextFundingTime)))
  }

  function FundingOf(ctx: Context, pair: Pair, rates: seq<FundingRate>): seq<Candidate> {
    if |rates| < 2 then []
    else
      var low, high := rates[LowestRate(rates, |rates|)], rates[HighestRate(rates, |rates|)];
      if low.venue == high.venue then []
      else if MinReal(low.nextFundingTime, high.nextFundingTime) - ctx.now < MIN_LEAD_SEC then []
      else if Annualized(high) - Annualized(low) < FundingThreshold(ctx.cfg, ctx.rates, low.venue, high.venue)
              && !ctx.IsActiveRoute(FUNDING, pair, low.venue, high.venue, None) then []
      else [FundingCandidate(pair, low, high)]
  }

  function DetectFunding(ctx: Context, m: Snapshot, pair: Pair): seq<Candidate> {
    FundingOf(ctx, pair, OnlineRates(ctx, m.funding, pair.base, |m.funding|))
  }

  function Detect(kind: ArbType, ctx: Context, m: Snapshot, pair: Pair): seq<Candidate> {
    match kind
    case CEX_CEX => DetectCexCex(ctx, m, pair)
    case CEX_DEX => DetectCexDex(ctx, m, pair)
    case DEX_DEX => DetectDexDex(ctx, m, pair)
    case CROSS_CHAIN => DetectCrossChain(ctx, m, pair)
    case FUNDING => DetectFunding(ctx, m, pair)
  }
}
