/** Which detectors a write can affect (src/scanner/engine.py:69-91, 222-244, 448-497): the routing of
    events to detectors, and the eligibility filter of the reconciliation scan, lose nothing. */
module EventRouting {
  import opened Prelude
  import opened Market
  import opened Config
  import opened Signals
  import opened RobustStats
  import opened EconomicFloor
  import opened MarketCache
  import opened Detection

  datatype Group = CexGroup | DexGroup | FundingGroup

  const ALL_GROUPS := {CexGroup, DexGroup, FundingGroup}

  /** The groups of market data each detector is run for. */
  function Triggers(kind: ArbType): set<Group> {
    match kind
    case CEX_CEX => {CexGroup}
    case CEX_DEX => {CexGroup, DexGroup}
    case DEX_DEX => {DexGroup}
    case CROSS_CHAIN => {DexGroup}
    case FUNDING => {FundingGroup}
  }

  const FUNDING_QUOTE := "USDT"

  datatype Write =
    | PriceWrite(key: Key, quote: PriceQuote, at: real)
    | BookWrite(key: Key, book: OrderBook)
    | FundingWrite(base: string, rate: FundingRate)
  {
    /** The symbol the engine queues for this write. */
    function Symbol(): Pair {
      if FundingWrite? then Pair(base, FUNDING_QUOTE) else key.1
    }
  }

  /** The group of a cache write by this venue. */
  function VenueGroup(ctx: Context, venue: string): Group {
    if ctx.IsVenueOf(venue, DEX) then DexGroup else CexGroup
  }

  function GroupOf(ctx: Context, w: Write): Group {
    if w.FundingWrite? then FundingGroup else VenueGroup(ctx, w.key.0)
  }

  /** A new rate takes the place of the venue's last one for the asset. */
  function SetRate(funding: seq<(string, FundingRate)>, base: string, rate: FundingRate): seq<(string, FundingRate)> {
    if funding == [] then [(base, rate)]
    else
      var last := funding[|funding| - 1];
      if last.0 == base && last.1.venue == rate.venue then funding[..|funding| - 1] + [(base, rate)]
      else SetRate(funding[..|funding| - 1], base, rate) + [last]
  }

  function Apply(cacheCfg: CacheConfig, m: Snapshot, w: Write): Snapshot {
    match w
    case PriceWrite(key, q, at) => m.(cache := PriceWritten(cacheCfg, m.cache, key, q, at))
    case BookWrite(key, book) => m.(cache := BookWritten(cacheCfg, m.cache, key, book))
    case FundingWrite(base, rate) => m.(funding := SetRate(m.funding, base, rate))
  }

  /** Listeners hear of accepted writes only. */
  predicate Emits(cacheCfg: CacheConfig, m: Snapshot, w: Write) {
    match w
    case PriceWrite(key, q, at) => JudgePrice(cacheCfg, m.cache, key, q, at).Accepted?
    case BookWrite(key, book) => AcceptsBook(m.cache, key, book)
    case FundingWrite(_, _) => true
  }

  /** The detections an accepted write can change: the detectors of its group on its own symbol, and
      for a funding rate the funding detector on every symbol of the asset. */
  predicate Reaches(ctx: Context, w: Write, kind: ArbType, pair: Pair) {
    GroupOf(ctx, w) in Triggers(kind) && (if w.FundingWrite? then pair.base == w.base else pair == w.Symbol())
  }

  // ── funding rates ──

  /** One rate for each asset and venue. */
  ghost predicate OneRateEach(funding: seq<(string, FundingRate)>) {
    forall i, j :: 0 <= i < j < |funding| ==>
      funding[i].0 != funding[j].0 || funding[i].1.venue != funding[j].1.venue
  }

  /** A write leaves one rate for each asset and venue: the one written, and of the others what was there. */
  lemma {:induction false} LatestRateIsKept(funding: seq<(string, FundingRate)>, base: string, rate: FundingRate)
    requires OneRateEach(funding)
    ensures var after := SetRate(funding, base, rate);
      && OneRateEach(after) && (base, rate) in after
      && forall b, r :: (b, r) in after <==>
           (b, r) == (base, rate) || ((b != base || r.venue != rate.venue) && (b, r) in funding)
  {
    if funding != [] {
      var rest, last := funding[..|funding| - 1], funding[|funding| - 1];
      assert funding == rest + [last];
      LatestRateIsKept(rest, base, rate);
      var before := SetRate(rest, base, rate);
      if last.0 != base || last.1.venue != rate.venue {
        forall i | 0 <= i < |before|
          ensures before[i].0 != last.0 || before[i].1.venue != last.1.venue
        {
          var (b, r) := before[i];
          assert (b, r) in before;
          if (b, r) != (base, rate) {
            var k :| 0 <= k < |rest| && rest[k] == (b, r);
            assert funding[k] == (b, r) && funding[|funding| - 1] == last;
          }
        }
      } else {
        forall b, r | (b, r) in rest ensures b != base || r.venue != rate.venue {
          var k :| 0 <= k < |rest| && rest[k] == (b, r);
          assert funding[k] == (b, r) && funding[|funding| - 1] == last;
        }
      }
    }
  }

  // ── scans that a write leaves alone ──

  lemma {:induction false} CexScanFrame(ctx: Context, c: Cache, d: Cache, pair: Pair, venues: seq<string>)
    requires forall v :: v in venues ==> CexEntry(ctx, c, pair, v) == CexEntry(ctx, d, pair, v)
    ensures CexScan(ctx, c, pair, venues) == CexScan(ctx, d, pair, venues)
  {
    hide CexEntry;
    if venues != [] {
      CexScanFrame(ctx, c, d, pair, venues[..|venues| - 1]);
    }
  }

  lemma {:induction false} DexScanFrame(ctx: Context, c: Cache, d: Cache, pair: Pair, venues: seq<string>)
    requires forall v :: v in venues ==> DexEntry(ctx, c, pair, v) == DexEntry(ctx, d, pair, v)
    ensures DexScan(ctx, c, pair, venues) == DexScan(ctx, d, pair, venues)
  {
    hide DexEntry;
    if venues != [] {
      DexScanFrame(ctx, c, d, pair, venues[..|venues| - 1]);
    }
  }

  ghost predicate SameAt(c: Cache, d: Cache, k: Key) {
    && (k in c.prices <==> k in d.prices) && (k in c.prices ==> c.prices[k] == d.prices[k])
    && (k in c.books <==> k in d.books) && (k in c.books ==> c.books[k] == d.books[k])
  }

  lemma SameEntries(ctx: Context, c: Cache, d: Cache, pair: Pair, venue: string)
    requires SameAt(c, d, (venue, pair))
    ensures CexEntry(ctx, c, pair, venue) == CexEntry(ctx, d, pair, venue)
    ensures DexEntry(ctx, c, pair, venue) == DexEntry(ctx, d, pair, venue)
  {
  }

  /** One key of the cache changed, its venue appended to the index if it was not there. */
  ghost predicate WrittenAt(c: Cache, d: Cache, key: Key) {
    && (forall k: Key :: k != key ==> SameAt(c, d, k))
    && (forall p :: p != key.1 ==> c.VenuesOf(p) == d.VenuesOf(p))
    && d.VenuesOf(key.1) == AddVenue(c.VenuesOf(key.1), key.0)
  }

  lemma OtherPairsFrame(ctx: Context, c: Cache, d: Cache, key: Key, pair: Pair)
    requires WrittenAt(c, d, key) && pair != key.1
    ensures OnlineCexPrices(ctx, c, pair) == OnlineCexPrices(ctx, d, pair)
    ensures OnlineDexBooks(ctx, c, pair) == OnlineDexBooks(ctx, d, pair)
  {
    hide CexEntry, DexEntry, SameAt, CexScan, DexScan;
    forall v: string
      ensures CexEntry(ctx, c, pair, v) == CexEntry(ctx, d, pair, v)
          && DexEntry(ctx, c, pair, v) == DexEntry(ctx, d, pair, v)
    {
      SameEntries(ctx, c, d, pair, v);
    }
    CexScanFrame(ctx, c, d, pair, c.VenuesOf(pair));
    DexScanFrame(ctx, c, d, pair, c.VenuesOf(pair));
  }

  /** A write by a venue that is not an exchange leaves the exchange scan alone. */
  lemma NotCexFrame(ctx: Context, c: Cache, d: Cache, key: Key)
    requires WrittenAt(c, d, key) && !ctx.IsVenueOf(key.0, CEX)
    ensures OnlineCexPrices(ctx, c, key.1) == OnlineCexPrices(ctx, d, key.1)
  {
    hide SameAt;
    var venues := c.VenuesOf(key.1);
    forall v: string ensures CexEntry(ctx, c, key.1, v) == CexEntry(ctx, d, key.1, v) {
      if v != key.0 {
        SameEntries(ctx, c, d, key.1, v);
      }
    }
    CexScanFrame(ctx, c, d, key.1, venues);
    if key.0 !in venues {
      assert (venues + [key.0])[..|venues|] == venues;
      assert CexEntry(ctx, d, key.1, key.0) == [];
    }
  }

  lemma NotDexFrame(ctx: Context, c: Cache, d: Cache, key: Key)
    requires WrittenAt(c, d, key) && !ctx.IsVenueOf(key.0, DEX)
    ensures OnlineDexBooks(ctx, c, key.1) == OnlineDexBooks(ctx, d, key.1)
  {
    hide SameAt;
    var venues := c.VenuesOf(key.1);
    forall v: string ensures DexEntry(ctx, c, key.1, v) == DexEntry(ctx, d, key.1, v) {
      if v != key.0 {
        SameEntries(ctx, c, d, key.1, v);
      }
    }
    DexScanFrame(ctx, c, d, key.1, venues);
    if key.0 !in venues {
      assert (venues + [key.0])[..|venues|] == venues;
      assert DexEntry(ctx, d, key.1, key.0) == [];
    }
  }

  lemma {:induction false} OtherAssetRates(ctx: Context, funding: seq<(string, FundingRate)>, base: string,
                                           rate: FundingRate, asset: string)
    requires asset != base
    ensures var after := SetRate(funding, base, rate);
      OnlineRates(ctx, after, asset, |after|) == OnlineRates(ctx, funding, asset, |funding|)
  {
    var after := SetRate(funding, base, rate);
    if funding != [] {
      var rest := funding[..|funding| - 1];
      RatesPrefix(ctx, funding, rest, asset, |rest|);
      RatesPrefix(ctx, after, after[..|after| - 1], asset, |after| - 1);
      var last := funding[|funding| - 1];
      if !(last.0 == base && last.1.venue == rate.venue) {
        OtherAssetRates(ctx, rest, base, rate, asset);
        assert after[..|after| - 1] == SetRate(rest, base, rate);
      } else {
        assert after[..|after| - 1] == rest;
      }
    }
  }

  lemma {:induction false} RatesPrefix(ctx: Context, f: seq<(string, FundingRate)>, g: seq<(string, FundingRate)>,
                                       asset: string, n: nat)
    requires n <= |f| && n <= |g| && f[..n] == g[..n]
    ensures OnlineRates(ctx, f, asset, n) == OnlineRates(ctx, g, asset, n)
    decreases n
  {
    if n > 0 {
      assert f[n - 1] == f[..n][n - 1] == g[..n][n - 1] == g[n - 1];
      assert f[..n - 1] == f[..n][..n - 1] == g[..n - 1];
      RatesPrefix(ctx, f, g, asset, n - 1);
    }
  }

  lemma PriceWriteIsAtKey(cfg: CacheConfig, c: Cache, key: Key, q: PriceQuote, at: real)
    ensures var d := PriceWritten(cfg, c, key, q, at);
      if JudgePrice(cfg, c, key, q, at).Accepted? then WrittenAt(c, d, key)
      else d.prices == c.prices && d.books == c.books && d.index == c.index
  {
    hide JudgePrice, CrossVenueSuspect, AddVenue, Pushed, Bumped;
  }

  lemma BookWriteIsAtKey(cfg: CacheConfig, c: Cache, key: Key, book: OrderBook)
    ensures var d := BookWritten(cfg, c, key, book);
      if AcceptsBook(c, key, book) then WrittenAt(c, d, key)
      else d.prices == c.prices && d.books == c.books && d.index == c.index
  {
    hide AcceptsBook, AddVenue, Bumped;
  }

  lemma CacheWriteIsAtKey(cacheCfg: CacheConfig, m: Snapshot, w: Write)
    requires !w.FundingWrite?
    ensures var d := Apply(cacheCfg, m, w).cache;
      if Emits(cacheCfg, m, w) then WrittenAt(m.cache, d, w.key)
      else d.prices == m.cache.prices && d.books == m.cache.books && d.index == m.cache.index
  {
    hide WrittenAt, JudgePrice, AcceptsBook, PriceWritten, BookWritten;
    match w {
      case PriceWrite(key, q, at) => PriceWriteIsAtKey(cacheCfg, m.cache, key, q, at);
      case BookWrite(key, book) => BookWriteIsAtKey(cacheCfg, m.cache, key, book);
    }
  }

  /** Detection depends on the cache through its prices, books and index only. */
  lemma SameDataFrame(ctx: Context, c: Cache, d: Cache, pair: Pair)
    requires c.prices == d.prices && c.books == d.books && c.index == d.index
    ensures OnlineCexPrices(ctx, c, pair) == OnlineCexPrices(ctx, d, pair)
    ensures OnlineDexBooks(ctx, c, pair) == OnlineDexBooks(ctx, d, pair)
  {
    hide CexEntry, DexEntry, CexScan, DexScan;
    forall v: string
      ensures CexEntry(ctx, c, pair, v) == CexEntry(ctx, d, pair, v)
          && DexEntry(ctx, c, pair, v) == DexEntry(ctx, d, pair, v)
    {
      SameEntries(ctx, c, d, pair, v);
    }
    CexScanFrame(ctx, c, d, pair, c.VenuesOf(pair));
    DexScanFrame(ctx, c, d, pair, c.VenuesOf(pair));
  }

  /** A write leaves every detection it does not reach exactly as it was, and a refused write leaves
      them all: skipping the detectors whose triggers omit the write's group skips nothing. */
  lemma UnreachedDetectionsAreUnchanged(cacheCfg: CacheConfig, ctx: Context, m: Snapshot, w: Write, kind: ArbType,
                                        pair: Pair)
    requires !Emits(cacheCfg, m, w) || !Reaches(ctx, w, kind, pair)
    ensures Detect(kind, ctx, Apply(cacheCfg, m, w), pair) == Detect(kind, ctx, m, pair)
  {
    hide CexCexOf, CexDexRows, PoolRows, FundingOf, OnlineCexPrices, OnlineDexBooks, PricedPools, BridgeablePools;
    hide OnlineRates, JudgePrice, AcceptsBook;
    var after := Apply(cacheCfg, m, w);
    if w.FundingWrite? {
      if pair.base != w.base {
        OtherAssetRates(ctx, m.funding, w.base, w.rate, pair.base);
      }
    } else {
      CacheWriteIsAtKey(cacheCfg, m, w);
      if !Emits(cacheCfg, m, w) {
        SameDataFrame(ctx, m.cache, after.cache, pair);
      } else if pair != w.key.1 {
        OtherPairsFrame(ctx, m.cache, after.cache, w.key, pair);
      } else if ctx.IsVenueOf(w.key.0, DEX) {
        NotCexFrame(ctx, m.cache, after.cache, w.key);
      } else {
        NotDexFrame(ctx, m.cache, after.cache, w.key);
      }
    }
  }

  // ── several detectors at once ──

  const DETECTORS := [CEX_CEX, CEX_DEX, DEX_DEX, CROSS_CHAIN, FUNDING]

  /** The candidates of the chosen ones among the first n detectors, in the engine's order. */
  function DetectAmong(ctx: Context, m: Snapshot, pair: Pair, chosen: set<ArbType>, n: nat): seq<Candidate>
    requires n <= |DETECTORS|
    decreases n
  {
    if n == 0 then []
    else
      DetectAmong(ctx, m, pair, chosen, n - 1)
      + (if DETECTORS[n - 1] in chosen then Detect(DETECTORS[n - 1], ctx, m, pair) else [])
  }

  // ── the reconciliation scan ──

  /** Online venues of a type, and the named networks of online pools, among the venues listed. */
  function OnlineCount(ctx: Context, venues: seq<string>, vt: VenueType): nat {
    if venues == [] then 0
    else
      var v := venues[|venues| - 1];
      OnlineCount(ctx, venues[..|venues| - 1], vt) + (if v in ctx.online && ctx.IsVenueOf(v, vt) then 1 else 0)
  }

  function OnlineNetworks(ctx: Context, venues: seq<string>): set<string> {
    if venues == [] then {}
    else
      var v := venues[|venues| - 1];
      var net := ctx.NetworkOf(v);
      OnlineNetworks(ctx, venues[..|venues| - 1])
      + (if v in ctx.online && ctx.IsVenueOf(v, DEX) && net.Some? && net.value != "" then {net.value} else {})
  }

  /** The detectors that could form a candidate for the pair, judged by online coverage alone. */
  function Eligible(ctx: Context, m: Snapshot, pair: Pair): set<ArbType> {
    var venues := m.cache.VenuesOf(pair);
    var cex, dex := OnlineCount(ctx, venues, CEX), OnlineCount(ctx, venues, DEX);
    (if cex >= 2 then {CEX_CEX} else {})
    + (if cex >= 1 && dex >= 1 then {CEX_DEX} else {})
    + (if dex >= 2 then {DEX_DEX} else {})
    + (if |OnlineNetworks(ctx, venues)| >= 2 then {CROSS_CHAIN} else {})
    + (if |OnlineRates(ctx, m.funding, pair.base, |m.funding|)| >= 2 then {FUNDING} else {})
  }

  lemma {:induction false} ScansWithinCoverage(ctx: Context, c: Cache, pair: Pair, venues: seq<string>)
    ensures |CexScan(ctx, c, pair, venues)| <= OnlineCount(ctx, venues, CEX)
    ensures |DexScan(ctx, c, pair, venues)| <= OnlineCount(ctx, venues, DEX)
  {
    if venues != [] {
      ScansWithinCoverage(ctx, c, pair, venues[..|venues| - 1]);
    }
  }

  lemma {:induction false} ScannedNetworks(ctx: Context, c: Cache, pair: Pair, venues: seq<string>, b: DexBook)
    requires b in DexScan(ctx, c, pair, venues) && OnNamedNetwork(PoolOf(ctx, b))
    ensures PoolOf(ctx, b).network.value in OnlineNetworks(ctx, venues)
  {
    var rest := venues[..|venues| - 1];
    if b in DexScan(ctx, c, pair, rest) {
      ScannedNetworks(ctx, c, pair, rest, b);
    }
  }

  lemma {:induction false} BridgeableComeFromBooks(ctx: Context, books: seq<DexBook>, n: nat, pool: Pool)
    requires n <= |books| && pool in BridgeablePools(ctx, books, n)
    ensures OnNamedNetwork(pool) && exists b :: b in books && pool == PoolOf(ctx, b)
    decreases n
  {
    if pool in BridgeablePools(ctx, books, n - 1) {
      BridgeableComeFromBooks(ctx, books, n - 1, pool);
    } else {
      assert pool == PoolOf(ctx, books[n - 1]);
    }
  }

  lemma TwoNetworks(s: set<string>, a: string, b: string)
    requires a in s && b in s && a != b
    ensures |s| >= 2
  {
    assert {a, b} <= s;
    var rest := s - {a, b};
    assert s == {a, b} + rest;
  }

  ghost predicate AllOn(pools: seq<Pool>, network: Option<string>) {
    forall a :: 0 <= a < |pools| ==> pools[a].network == network
  }

  lemma {:induction false} NoPairNoRow(ctx: Context, pair: Pair, pools: seq<Pool>, network: Option<string>, i: nat,
                                       j: nat)
    requires i < j <= |pools| && AllOn(pools, network)
    ensures PoolRow(CROSS_CHAIN, ctx, pair, pools, i, j) == []
    decreases j
  {
    hide CrossDirected;
    if j > i + 1 {
      NoPairNoRow(ctx, pair, pools, network, i, j - 1);
    }
  }

  lemma {:induction false} OneNetworkNoCandidates(ctx: Context, pair: Pair, pools: seq<Pool>, network: Option<string>,
                                                  i: nat)
    requires i <= |pools| && AllOn(pools, network)
    ensures PoolRows(CROSS_CHAIN, ctx, pair, pools, i) == []
    decreases i
  {
    hide PoolRow;
    if i > 0 {
      OneNetworkNoCandidates(ctx, pair, pools, network, i - 1);
      NoPairNoRow(ctx, pair, pools, network, i - 1, |pools|);
    }
  }

  lemma CrossChainNeedsTwoNetworks(ctx: Context, m: Snapshot, pair: Pair)
    requires DetectCrossChain(ctx, m, pair) != []
    ensures |OnlineNetworks(ctx, m.cache.VenuesOf(pair))| >= 2
  {
    hide PoolRows, DexScan, BridgeablePools, OnlineNetworks;
    var venues := m.cache.VenuesOf(pair);
    var books := OnlineDexBooks(ctx, m.cache, pair);
    var pools := BridgeablePools(ctx, books, |books|);
    var network := if pools == [] then None else pools[0].network;
    if AllOn(pools, network) {
      OneNetworkNoCandidates(ctx, pair, pools, network, |pools|);
    } else {
      var a, b :| 0 <= a < |pools| && 0 <= b < |pools| && pools[a].network != pools[b].network;
      BridgeableComeFromBooks(ctx, books, |books|, pools[a]);
      BridgeableComeFromBooks(ctx, books, |books|, pools[b]);
      var x :| x in books && pools[a] == PoolOf(ctx, x);
      var y :| y in books && pools[b] == PoolOf(ctx, y);
      ScannedNetworks(ctx, m.cache, pair, venues, x);
      ScannedNetworks(ctx, m.cache, pair, venues, y);
      TwoNetworks(OnlineNetworks(ctx, venues), pools[a].network.value, pools[b].network.value);
    }
  }

  /** A detector that emits anything for a pair is eligible for it. */
  lemma EmitsOnlyIfEligible(ctx: Context, m: Snapshot, pair: Pair, kind: ArbType)
    requires Detect(kind, ctx, m, pair) != []
    ensures kind in Eligible(ctx, m, pair)
  {
    hide CexDexRows, PoolRows, PricedPools, BridgeablePools, OnlineRates, CexScan, DexScan, OnlineCount, OnlineNetworks;
    hide ClearsEconomicFloor, GrossPct;
    ScansWithinCoverage(ctx, m.cache, pair, m.cache.VenuesOf(pair));
    if kind == CROSS_CHAIN {
      CrossChainNeedsTwoNetworks(ctx, m, pair);
    }
  }

  /** Scanning only the detectors that are due and eligible finds what scanning all due ones finds. */
  lemma {:induction false} EligibleScanIsFullScan(ctx: Context, m: Snapshot, pair: Pair, due: set<ArbType>, n: nat)
    requires n <= |DETECTORS|
    ensures DetectAmong(ctx, m, pair, due * Eligible(ctx, m, pair), n) == DetectAmong(ctx, m, pair, due, n)
    decreases n
  {
    hide Detect, Eligible;
    if n > 0 {
      EligibleScanIsFullScan(ctx, m, pair, due, n - 1);
      if Detect(DETECTORS[n - 1], ctx, m, pair) != [] {
        EmitsOnlyIfEligible(ctx, m, pair, DETECTORS[n - 1]);
      }
    }
  }

  /** A pass finds exactly what the chosen detectors find. */
  lemma {:induction false} AmongIsChosen(ctx: Context, m: Snapshot, pair: Pair, chosen: set<ArbType>, n: nat,
                                         cand: Candidate)
    requires n <= |DETECTORS|
    ensures cand in DetectAmong(ctx, m, pair, chosen, n)
            <==> exists i :: 0 <= i < n && DETECTORS[i] in chosen && cand in Detect(DETECTORS[i], ctx, m, pair)
    decreases n
  {
    hide Detect;
    if n > 0 {
      AmongIsChosen(ctx, m, pair, chosen, n - 1, cand);
    }
  }

  /** And every detector is one of those listed. */
  lemma EveryKindIsListed(kind: ArbType)
    ensures kind in DETECTORS
  {
    assert DETECTORS == [DETECTORS[0], DETECTORS[1], DETECTORS[2], DETECTORS[3], DETECTORS[4]];
  }

  predicate OnlineOf(ctx: Context, venue: string, vt: VenueType) {
    venue in ctx.online && venue in ctx.venues && ctx.venues[venue].venueType == vt
  }

  /** The online venues of a kind among those listed. */
  ghost function OnlineAmong(ctx: Context, venues: seq<string>, vt: VenueType): set<string> {
    set v | v in venues && OnlineOf(ctx, v, vt)
  }

  lemma AmongGrows(ctx: Context, rest: seq<string>, last: string, vt: VenueType)
    ensures OnlineAmong(ctx, rest + [last], vt)
            == OnlineAmong(ctx, rest, vt) + (if OnlineOf(ctx, last, vt) then {last} else {})
    ensures OnlineAmong(ctx, rest, vt) <= set v | v in rest
    ensures OnlineAmong(ctx, [], vt) == {}
  {
    hide OnlineOf;
    forall v ensures v in rest + [last] <==> v in rest || v == last {
    }
  }

  lemma CountGrows(ctx: Context, rest: seq<string>, last: string, vt: VenueType)
    ensures OnlineCount(ctx, rest + [last], vt)
            == OnlineCount(ctx, rest, vt) + (if OnlineOf(ctx, last, vt) then 1 else 0)
    ensures OnlineCount(ctx, [], vt) == 0
  {
    assert (rest + [last])[..|rest|] == rest;
  }

  /** The count of online venues of a kind is how many of them there are. */
  lemma {:induction false} CountIsHolders(ctx: Context, venues: seq<string>, vt: VenueType)
    requires Distinct(venues)
    ensures OnlineCount(ctx, venues, vt) == |OnlineAmong(ctx, venues, vt)|
  {
    hide OnlineCount, OnlineAmong, OnlineOf;
    if venues == [] {
      AmongGrows(ctx, [], "", vt);
      CountGrows(ctx, [], "", vt);
    } else {
      var rest, last := venues[..|venues| - 1], venues[|venues| - 1];
      assert venues == rest + [last];
      CountIsHolders(ctx, rest, vt);
      AmongGrows(ctx, rest, last, vt);
      CountGrows(ctx, rest, last, vt);
      assert last !in OnlineAmong(ctx, rest, vt);
    }
  }

  lemma {:induction false} NetworksAreHolders(ctx: Context, venues: seq<string>, net: string)
    ensures net in OnlineNetworks(ctx, venues) <==>
      net != "" && exists v :: v in venues && v in ctx.online && v in ctx.venues
                               && ctx.venues[v] == VenueInfo(DEX, Some(net))
  {
    if venues != [] {
      var rest, last := venues[..|venues| - 1], venues[|venues| - 1];
      assert venues == rest + [last];
      NetworksAreHolders(ctx, rest, net);
    }
  }

  lemma EligibleByCounts(ctx: Context, m: Snapshot, pair: Pair)
    ensures var venues := m.cache.VenuesOf(pair);
      var cex, dex := OnlineCount(ctx, venues, CEX), OnlineCount(ctx, venues, DEX);
      var eligible := Eligible(ctx, m, pair);
      && (CEX_CEX in eligible <==> cex >= 2) && (CEX_DEX in eligible <==> cex >= 1 && dex >= 1)
      && (DEX_DEX in eligible <==> dex >= 2)
      && (CROSS_CHAIN in eligible <==> |OnlineNetworks(ctx, venues)| >= 2)
      && (FUNDING in eligible <==> |OnlineRates(ctx, m.funding, pair.base, |m.funding|)| >= 2)
  {
    hide OnlineCount, OnlineNetworks, OnlineRates;
  }

  lemma IndexIsDistinct(cacheCfg: CacheConfig, c: Cache, pair: Pair)
    requires Valid(cacheCfg, c)
    ensures Distinct(c.VenuesOf(pair))
  {
    hide AdmittedOnly;
  }

  /** Which detectors are eligible: with enough online venues of their kinds holding the pair, for cross-chain pools on
      two named networks, and for funding two online rates of the asset. */
  lemma EligibleIff(cacheCfg: CacheConfig, ctx: Context, m: Snapshot, pair: Pair)
    requires Valid(cacheCfg, m.cache)
    ensures var venues := m.cache.VenuesOf(pair);
      var cex, dex := |OnlineAmong(ctx, venues, CEX)|, |OnlineAmong(ctx, venues, DEX)|;
      var eligible := Eligible(ctx, m, pair);
      && (CEX_CEX in eligible <==> cex >= 2) && (CEX_DEX in eligible <==> cex >= 1 && dex >= 1)
      && (DEX_DEX in eligible <==> dex >= 2)
      && (CROSS_CHAIN in eligible <==> |OnlineNetworks(ctx, venues)| >= 2)
      && (FUNDING in eligible <==> |OnlineRates(ctx, m.funding, pair.base, |m.funding|)| >= 2)
  {
    hide OnlineCount, OnlineNetworks, OnlineRates, Valid, OnlineAmong, Distinct, Eligible;
    IndexIsDistinct(cacheCfg, m.cache, pair);
    EligibleByCounts(ctx, m, pair);
    CountIsHolders(ctx, m.cache.VenuesOf(pair), CEX);
    CountIsHolders(ctx, m.cache.VenuesOf(pair), DEX);
  }
}
