/** The detectors as the engine runs them (src/scanner/detectors/, src/scanner/engine.py:279-339): loops
    over scans shared through a per-tick memo, each proved to compute its function in Detection. */
module DetectionLoops {
  import opened Prelude
  import opened Market
  import opened Config
  import opened Signals
  import opened EconomicFloor
  import opened MarketCache
  import opened Detection
  import opened EventRouting

  /** The detection context with its scan memo. */
  class MemoContext {
    const ctx: Context
    var memoActive: bool
    var memoCex: map<Pair, seq<CexQuote>>
    var memoDex: map<Pair, seq<DexBook>>

    constructor (ctx: Context)
      ensures this.ctx == ctx && !memoActive && memoCex == map[] && memoDex == map[]
    {
      this.ctx := ctx;
      memoActive, memoCex, memoDex := false, map[], map[];
    }

    /** Whatever the memo would answer is what scanning this cache afresh gives. */
    ghost predicate Coherent(c: Cache)
      reads this
    {
      memoActive ==>
        (forall p :: p in memoCex ==> memoCex[p] == OnlineCexPrices(ctx, c, p))
        && (forall p :: p in memoDex ==> memoDex[p] == OnlineDexBooks(ctx, c, p))
    }

    /** A new tick: the memo is empty, hence coherent with the cache whatever has been written to it. */
    method BeginTick()
      modifies this
      ensures memoActive && forall c :: Coherent(c)
    {
      memoActive, memoCex, memoDex := true, map[], map[];
    }

    method CexPrices(c: Cache, pair: Pair) returns (out: seq<CexQuote>)
      requires Coherent(c)
      modifies this`memoCex
      ensures out == OnlineCexPrices(ctx, c, pair)
      ensures Coherent(c)
    {
      if memoActive && pair in memoCex {
        return memoCex[pair];
      }
      hide CexEntry;
      out := [];
      var venues := c.VenuesOf(pair);
      for i := 0 to |venues|
        invariant out == CexScan(ctx, c, pair, venues[..i])
      {
        assert venues[..i + 1][..i] == venues[..i];
        out := out + CexEntry(ctx, c, pair, venues[i]);
      }
      assert venues[..|venues|] == venues;
      if memoActive {
        memoCex := memoCex[pair := out];
      }
    }

    method DexBooks(c: Cache, pair: Pair) returns (out: seq<DexBook>)
      requires Coherent(c)
      modifies this`memoDex
      ensures out == OnlineDexBooks(ctx, c, pair)
      ensures Coherent(c)
    {
      if memoActive && pair in memoDex {
        return memoDex[pair];
      }
      hide DexEntry;
      out := [];
      var venues := c.VenuesOf(pair);
      for i := 0 to |venues|
        invariant out == DexScan(ctx, c, pair, venues[..i])
      {
        assert venues[..i + 1][..i] == venues[..i];
        out := out + DexEntry(ctx, c, pair, venues[i]);
      }
      assert venues[..|venues|] == venues;
      if memoActive {
        memoDex := memoDex[pair := out];
      }
    }
  }

  /** One pass over the quotes: cheapest ask, dearest bid. None stands for the infinite first ask and the
      venue not chosen yet. */
  method BestPair(prices: seq<CexQuote>) returns (buy: Option<CexQuote>, sell: Option<CexQuote>)
    ensures var b := BestBuy(prices, |prices|); buy == if b.None? then None else Some(prices[b.value])
    ensures var s := BestSell(prices, |prices|); sell == if s.None? then None else Some(prices[s.value])
  {
    buy, sell := None, None;
    var bestBid := 0.0;
    for i := 0 to |prices|
      invariant var b := BestBuy(prices, i); buy == if b.None? then None else Some(prices[b.value])
      invariant var s := BestSell(prices, i); sell == if s.None? then None else Some(prices[s.value])
      invariant bestBid == if sell.None? then 0.0 else sell.value.quote.bid
    {
      var q := prices[i];
      if buy.None? || q.quote.ask < buy.value.quote.ask {
        buy := Some(q);
      }
      if q.quote.bid > bestBid {
        bestBid, sell := q.quote.bid, Some(q);
      }
    }
  }

  method CexCexDetector(memo: MemoContext, m: Snapshot, pair: Pair) returns (out: seq<Candidate>)
    requires memo.Coherent(m.cache)
    modifies memo
    ensures out == DetectCexCex(memo.ctx, m, pair)
    ensures memo.Coherent(m.cache) && memo.memoActive == old(memo.memoActive)
  {
    hide ClearsEconomicFloor, GrossPct, CexScan;
    var ctx := memo.ctx;
    if pair.base in ctx.cfg.ambiguousTickers {
      return [];
    }
    var prices := memo.CexPrices(m.cache, pair);
    if |prices| < 2 {
      return [];
    }
    var buy, sell := BestPair(prices);
    if buy.None? || sell.None? || buy.value.venue == sell.value.venue {
      return [];
    }
    var b, s := buy.value, sell.value;
    var gross := GrossPct(b.quote.ask, s.quote.bid);
    if gross <= 0.0 {
      return [];
    }
    if ctx.cfg.maxPlausibleCexSpreadPct > 0.0 && gross > ctx.cfg.maxPlausibleCexSpreadPct {
      return [];
    }
    if !ClearsEconomicFloor(ctx.cfg, ctx.rates, gross, b.venue, CEX, s.venue, CEX, pair.quote, 0.0) {
      if !ctx.IsActiveRoute(CEX_CEX, pair, b.venue, s.venue, None) {
        return [];
      }
    }
    return [CexCexCandidate(pair, b, s)];
  }

  method PricePools(ctx: Context, books: seq<DexBook>) returns (pools: seq<Pool>)
    ensures pools == PricedPools(ctx, books, |books|)
  {
    pools := [];
    for i := 0 to |books|
      invariant pools == PricedPools(ctx, books, i)
    {
      if Spot(books[i].book) > 0.0 {
        pools := pools + [PoolOf(ctx, books[i])];
      }
    }
  }

  method CexDexDetector(memo: MemoContext, m: Snapshot, pair: Pair) returns (out: seq<Candidate>)
    requires memo.Coherent(m.cache)
    modifies memo
    ensures out == DetectCexDex(memo.ctx, m, pair)
    ensures memo.Coherent(m.cache) && memo.memoActive == old(memo.memoActive)
  {
    hide CexDexOne, CexScan, DexScan, PricedPools;
    var ctx := memo.ctx;
    if pair.base !in ctx.verified {
      return [];
    }
    var prices := memo.CexPrices(m.cache, pair);
    var books := memo.DexBooks(m.cache, pair);
    if prices == [] || books == [] {
      return [];
    }
    var pools := PricePools(ctx, books);
    out := [];
    for i := 0 to |prices|
      invariant out == CexDexRows(ctx, pair, prices, pools, i)
    {
      ghost var done := out;
      for j := 0 to |pools|
        invariant out == done + CexDexRow(ctx, pair, prices[i], pools, j)
      {
        out := out + CexDexOne(ctx, pair, prices[i], pools[j]);
      }
    }
  }

  /** The pairwise loop shared by the two pool detectors. */
  method PoolPairs(kind: ArbType, ctx: Context, pair: Pair, pools: seq<Pool>) returns (out: seq<Candidate>)
    ensures out == PoolRows(kind, ctx, pair, pools, |pools|)
  {
    hide PoolPair;
    out := [];
    for i := 0 to |pools|
      invariant out == PoolRows(kind, ctx, pair, pools, i)
    {
      ghost var done := out;
      for j := i + 1 to |pools|
        invariant out == done + PoolRow(kind, ctx, pair, pools, i, j)
      {
        out := out + PoolPair(kind, ctx, pair, pools[i], pools[j]);
      }
    }
  }

  method DexDexDetector(memo: MemoContext, m: Snapshot, pair: Pair) returns (out: seq<Candidate>)
    requires memo.Coherent(m.cache)
    modifies memo
    ensures out == DetectDexDex(memo.ctx, m, pair)
    ensures memo.Coherent(m.cache) && memo.memoActive == old(memo.memoActive)
  {
    hide PoolRows, DexScan, PricedPools;
    if pair.base !in memo.ctx.verified {
      return [];
    }
    var books := memo.DexBooks(m.cache, pair);
    if |books| < 2 {
      return [];
    }
    var pools := PricePools(memo.ctx, books);
    out := PoolPairs(DEX_DEX, memo.ctx, pair, pools);
  }

  method CrossChainDetector(memo: MemoContext, m: Snapshot, pair: Pair) returns (out: seq<Candidate>)
    requires memo.Coherent(m.cache)
    modifies memo
    ensures out == DetectCrossChain(memo.ctx, m, pair)
    ensures memo.Coherent(m.cache) && memo.memoActive == old(memo.memoActive)
  {
    hide PoolRows, DexScan;
    var ctx := memo.ctx;
    if pair.base !in ctx.verified {
      return [];
    }
    var books := memo.DexBooks(m.cache, pair);
    if |books| < 2 {
      return [];
    }
    var pools: seq<Pool> := [];
    for i := 0 to |books|
      invariant pools == BridgeablePools(ctx, books, i)
    {
      var pool := PoolOf(ctx, books[i]);
      if OnNamedNetwork(pool) && pool.spot > 0.0 {
        pools := pools + [pool];
      }
    }
    out := PoolPairs(CROSS_CHAIN, ctx, pair, pools);
  }

  method RunDetector(kind: ArbType, memo: MemoContext, m: Snapshot, pair: Pair) returns (out: seq<Candidate>)
    requires memo.Coherent(m.cache)
    modifies memo
    ensures out == Detect(kind, memo.ctx, m, pair)
    ensures memo.Coherent(m.cache) && memo.memoActive == old(memo.memoActive)
  {
    match kind {
      case CEX_CEX => out := CexCexDetector(memo, m, pair);
      case CEX_DEX => out := CexDexDetector(memo, m, pair);
      case DEX_DEX => out := DexDexDetector(memo, m, pair);
      case CROSS_CHAIN => out := CrossChainDetector(memo, m, pair);
      case FUNDING => out := DetectFunding(memo.ctx, m, pair);
    }
  }

  // ── one candidate per route ──

  /** Position of the route in the list, or its length. */
  function Find(cands: seq<Candidate>, key: RouteKey): (i: nat)
    ensures i <= |cands|
    ensures i < |cands| ==> cands[i].DedupKey() == key
    ensures forall j :: 0 <= j < i ==> cands[j].DedupKey() != key
  {
    if cands == [] then 0 else if cands[0].DedupKey() == key then 0 else 1 + Find(cands[1..], key)
  }

  /** Taken in order, a candidate displaces the one kept for its route only by a greater spread. */
  function Kept(best: seq<Candidate>, cand: Candidate): seq<Candidate> {
    var i := Find(best, cand.DedupKey());
    if i == |best| then best + [cand]
    else if cand.grossSpreadPct > best[i].grossSpreadPct then best[i := cand]
    else best
  }

  function Collapsed(cands: seq<Candidate>, n: nat): seq<Candidate>
    requires n <= |cands|
    decreases n
  {
    if n == 0 then [] else Kept(Collapsed(cands, n - 1), cands[n - 1])
  }

  ghost predicate RoutesDistinct(cands: seq<Candidate>) {
    forall i, j :: 0 <= i < j < |cands| ==> cands[i].DedupKey() != cands[j].DedupKey()
  }

  /** Some candidate of the list is on the same route and at least as wide. */
  ghost predicate Represented(cand: Candidate, cands: seq<Candidate>) {
    exists i :: 0 <= i < |cands| && cands[i].DedupKey() == cand.DedupKey()
      && cands[i].grossSpreadPct >= cand.grossSpreadPct
  }

  lemma KeptRepresents(best: seq<Candidate>, cand: Candidate, other: Candidate)
    requires RoutesDistinct(best)
    ensures RoutesDistinct(Kept(best, cand))
    ensures Represented(cand, Kept(best, cand))
    ensures Represented(other, best) ==> Represented(other, Kept(best, cand))
    ensures forall c :: c in Kept(best, cand) ==> c in best || c == cand
  {
    hide Candidate.DedupKey;
    var i := Find(best, cand.DedupKey());
    var kept := Kept(best, cand);
    if i == |best| {
      assert kept[|best|] == cand;
    } else {
      assert kept[i].DedupKey() == cand.DedupKey() && kept[i].grossSpreadPct >= cand.grossSpreadPct;
    }
    if Represented(other, best) {
      var j :| 0 <= j < |best| && best[j].DedupKey() == other.DedupKey()
        && best[j].grossSpreadPct >= other.grossSpreadPct;
      assert kept[j].DedupKey() == other.DedupKey() && kept[j].grossSpreadPct >= other.grossSpreadPct;
    }
  }

  /** Collapsing keeps one candidate per route, only candidates that were found, and for each route the
      widest spread found. */
  lemma {:induction false} CollapseKeepsBest(cands: seq<Candidate>, n: nat)
    requires n <= |cands|
    ensures RoutesDistinct(Collapsed(cands, n))
    ensures forall c :: c in Collapsed(cands, n) ==> c in cands
    ensures forall i :: 0 <= i < n ==> Represented(cands[i], Collapsed(cands, n))
    decreases n
  {
    hide Kept, Represented, RoutesDistinct;
    if n > 0 {
      CollapseKeepsBest(cands, n - 1);
      KeptRepresents(Collapsed(cands, n - 1), cands[n - 1], cands[n - 1]);
      forall i | 0 <= i < n ensures Represented(cands[i], Collapsed(cands, n)) {
        KeptRepresents(Collapsed(cands, n - 1), cands[n - 1], cands[i]);
      }
    } else {
      EmptyIsDistinct();
    }
  }

  lemma EmptyIsDistinct()
    ensures RoutesDistinct([])
  {
  }

  /** The detectors a pass runs: the given set, else those the groups trigger. */
  function Chosen(groups: set<Group>, only: Option<set<ArbType>>): set<ArbType> {
    if only.Some? then only.value
    else set k | k in {CEX_CEX, CEX_DEX, DEX_DEX, CROSS_CHAIN, FUNDING} && Triggers(k) * groups != {}
  }

  /** The detection half of a pass over one symbol, up to the candidates handed on. */
  method DetectSymbol(memo: MemoContext, m: Snapshot, pair: Pair, groups: set<Group>, only: Option<set<ArbType>>)
    returns (out: seq<Candidate>)
    modifies memo
    ensures var found := DetectAmong(memo.ctx, m, pair, Chosen(groups, only), |DETECTORS|);
      out == Collapsed(found, |found|)
  {
    hide Detect, Kept;
    memo.BeginTick();
    var found: seq<Candidate> := [];
    for i := 0 to |DETECTORS|
      invariant memo.Coherent(m.cache)
      invariant found == DetectAmong(memo.ctx, m, pair, Chosen(groups, only), i)
    {
      var kind := DETECTORS[i];
      if (only.Some? && kind in only.value) || (only.None? && Triggers(kind) * groups != {}) {
        var some := RunDetector(kind, memo, m, pair);
        found := found + some;
      }
    }
    if |found| > 1 {
      out := [];
      for i := 0 to |found|
        invariant out == Collapsed(found, i)
      {
        out := Kept(out, found[i]);
      }
    } else {
      out := found;
      SingleIsKept(found);
    }
  }

  lemma SingleIsKept(cands: seq<Candidate>)
    requires |cands| <= 1
    ensures Collapsed(cands, |cands|) == cands
  {
    if |cands| == 1 {
      assert Collapsed(cands, 1) == Kept(Collapsed(cands, 0), cands[0]);
    }
  }
}
