/** A live exchange route whose spread falls below what can pay is taken down on the next detection
    (src/scanner/detectors/cex_cex.py:88-94, assembler.py:217-230, engine.py:341-358): the chain from
    detector to active set, across the three places where the route's key is put together. */
module SpreadCollapse {
  import opened Prelude
  import opened Market
  import opened Config
  import opened Mathx
  import opened Signals
  import opened Validator
  import opened Assembler
  import opened EconomicFloor
  import opened MarketCache
  import opened Detection
  import opened Selection
  import opened Lifecycle

  /** The rejections that close an active route at once. */
  predicate ClosesRoute(reason: RejectReason) {
    reason == BELOW_MIN_PROFIT || reason == UNPROFITABLE_AFTER_FEES
  }

  /** What the engine does with an assembled candidate. */
  function Handled(lifeCfg: LifeConfig, st: State, cand: Candidate, result: Assembly, ranking: RankingLevel,
                   now: real): State {
    match result
    case Rejected(reason) => if ClosesRoute(reason) then Expired(lifeCfg, st, cand.DedupKey(), now) else st
    case Published(bd, _) => Admitted(lifeCfg, st, BuildSignal(cand, bd.netProfitUsd, ranking, now), now).0
  }

  /** The key the detector asks for, the key of the candidate it emits, and the key of a signal built from
      any candidate on the route, bought and sold either way round, are the same. */
  lemma KeysAgree(pair: Pair, b: CexQuote, s: CexQuote, earlier: Candidate, net: real, ranking: RankingLevel, at: real)
    requires '/' !in pair.quote
    requires earlier.arbType == CEX_CEX && earlier.base == pair.base && earlier.quote == pair.quote
        && earlier.network == None
    requires (earlier.buyLeg.venue == b.venue && earlier.sellLeg.venue == s.venue)
             || (earlier.buyLeg.venue == s.venue && earlier.sellLeg.venue == b.venue)
    ensures CexCexCandidate(pair, b, s).DedupKey()
            == RouteKey(CEX_CEX, pair.base, pair.quote, SortedPair(b.venue, s.venue), None)
            == BuildSignal(earlier, net, ranking, at).DedupKey()
  {
    SignalKeepsRouteKey(earlier, net, ranking, at);
    RouteIsUndirected(b.venue, s.venue);
  }

  /** Below the detector's floor means below the assembler's cheap test, with a closing reason. */
  lemma BelowFloorFailsPreGate(cfg: ScannerConfig, rates: map<string, real>, env: Environment, cand: Candidate)
    requires SameRates(rates, env, cand.buyLeg) && SameRates(rates, env, cand.sellLeg)
    requires FeeFloorPct(cfg, env, cand).Some?
    requires !CandidateClears(cfg, rates, cand, 0.0)
    ensures PreGate(cfg, env, cand).Some? && ClosesRoute(PreGate(cfg, env, cand).value)
  {
  }

  /** When the best pair on an active route still shows a positive, plausible spread that no longer clears
      the floor: the detector emits it all the same, the assembler rejects it before the full pipeline with
      a closing reason, and after the engine has handled it the route is not active. */
  lemma CollapsedSpreadEndsRoute(ctx: Context, env: Environment, lifeCfg: LifeConfig, pair: Pair, prices: seq<CexQuote>,
                                 earlier: Candidate, net: real, ranking: RankingLevel, at: real,
                                 buyBook: Option<OrderBook>, sellBook: Option<OrderBook>, st: State, now: real)
    requires CachedQuotes(prices) && |prices| >= 2 && exists i, j :: ProfitablePair(prices, i, j)
    requires BestBuy(prices, |prices|).Some? && BestSell(prices, |prices|).Some?
    requires var b, s := prices[BestBuy(prices, |prices|).value], prices[BestSell(prices, |prices|).value];
      var cand := CexCexCandidate(pair, b, s);
      && !Implausible(ctx.cfg, cand.grossSpreadPct)
      && !CandidateClears(ctx.cfg, ctx.rates, cand, 0.0)
      && b.venue in env.takerRates && s.venue in env.takerRates
      && SameRates(ctx.rates, env, cand.buyLeg) && SameRates(ctx.rates, env, cand.sellLeg)
      && BooksUsable(cand, buyBook, sellBook)
      && ((earlier.buyLeg.venue == b.venue && earlier.sellLeg.venue == s.venue)
          || (earlier.buyLeg.venue == s.venue && earlier.sellLeg.venue == b.venue))
    requires '/' !in pair.quote
    requires earlier.arbType == CEX_CEX && earlier.base == pair.base && earlier.quote == pair.quote
        && earlier.network == None
    requires BuildSignal(earlier, net, ranking, at).DedupKey() in st.active && ctx.activeRoutes == st.active.Keys
    ensures var b, s := prices[BestBuy(prices, |prices|).value], prices[BestSell(prices, |prices|).value];
      var cand := CexCexCandidate(pair, b, s);
      var result := AssembleSpot(ctx.cfg, env, cand, buyBook, sellBook);
      && CexCexOf(ctx, pair, prices) == [cand]
      && result.Rejected? && ClosesRoute(result.reason)
      && BuildSignal(earlier, net, ranking, at).DedupKey() !in Handled(lifeCfg, st, cand, result, ranking, now).active
  {
    hide BestBuy, BestSell, CexCexOf, CachedQuotes, ProfitablePair, CandidateClears, GrossPct;
    hide FullPipeline, Signal.DedupKey, BuildSignal, BooksUsable, SameRates;
    var b, s := prices[BestBuy(prices, |prices|).value], prices[BestSell(prices, |prices|).value];
    var cand := CexCexCandidate(pair, b, s);
    KeysAgree(pair, b, s, earlier, net, ranking, at);
    CexCexEmitsIff(ctx, pair, prices);
    BelowFloorFailsPreGate(ctx.cfg, ctx.rates, env, cand);
  }
}
