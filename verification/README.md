# Verified model of the arbitrage scanner

This project models the decision path of the scanning engine and three services around it, and proves
properties of that model with Dafny's verifier. `dafny verify dfyconfig.toml` checks all of it.

What is modelled, file by file:

- **Profit arithmetic and pruning** (`Mathx`, `LiquidityLeg`, `ProfitEngine`, `Assembler`, `FundingAssembler`,
  `Validator`, `EconomicFloor`): book walk, constant-product pool, the two size bisections, net profit at a size, the
  size sweep, the ordered gates, and the claim the code makes in several comments, that its cheap tests only skip
  candidates the full pipeline would reject at every size.
- **Exactness of the cheap tests** (`DeepTrades`, `DeepBooks`, `PreGateExactness`, `FloorExactness`): what books and
  pools of any depth can earn at given top prices, and from it exactly when that claim holds.
- **Market state** (`RobustStats`, `MarketCache`): admission of prices and books, outlier rejection, warm-up and
  the pair index, as a class over mutable maps and as theorems about whole runs.
- **Detection** (`Detection`, `Selection`, `DetectionLoops`): the five detectors as specification functions, the
  loops and the per-tick memo that compute them, and what their output means.
- **Event-driven detection** (`EventQueue`, `EventRouting`, `IncrementalDetection`): the coalescing queue, the
  routing of writes to detectors, the reconciliation filter, and the theorem that incremental detection agrees
  with running every detector on everything.
- **Signals over time** (`Lifecycle`, `Health`, `OfflineExpiry`, `SpreadCollapse`): active set, cooldowns, venue
  health, force-expiry tasks interleaved with admissions, and prompt expiry of a collapsed spread.
- **Services** (`Payments`, `RpcPool`, `Quota`): settlement at transaction granularity, the RPC circuit
  breakers, the Free quota.

`Prelude`, `Market`, `Config` and `Signals` hold the shared values. Operations that the source performs by updating
an object are methods of a class whose contracts equate the new state with a specification function; protocols
are step functions over explicit states, one step per stretch between two suspension points or transactions,
and theorems quantify over every sequence of steps. Decimals and floats are reals, clocks and network answers are
parameters, and configuration is fixed during a run.

Where the code does not do what its documentation or comments say, the code is modelled and the difference is
a lemma:

- "Priority 1 never queues" and weighted fairness: tier 1 waits at most two gets per position, and tier 3 has no
  bound of its own (`EventQueue.Tier1IsServed`, `EventQueue.Tier3CanStarve`).
- The pre-gate, said to be exact, is not when the books disagree with the quotes behind the candidate
  (`Assembler.PreGateNeedsCoveredSpread`). Covered tops suffice (`Assembler.PreGateIsLossless`); the exact condition
  is `PreGateExactness.PreGateAgreesIff`.
- The detectors' floor drops publishable candidates when the trade is larger than the amortisation notional or the
  estimate exceeds the true costs (`FloorExactness.LargeTradeIsDropped`, `FloorExactness.OverestimateIsDropped`;
  exactly when: `FloorExactness.FloorIsExactIff`).
- The funding breakeven is not the publish condition, as it ignores the return bar
  (`FundingAssembler.BreakevenIsPublishRateIff`), and a high noise floor drops publishable carries
  (`FundingAssembler.FundingPruneIsLosslessIff`).
- The sell leg may outgrow its own slippage limit (`ProfitEngine.SellLegCanOverrun`; exactly when:
  `ProfitEngine.BookSaleWithinToleranceIff`, `ProfitEngine.PoolSaleWithinToleranceIff`).
- The funding detector picks venues by rate per period, not per year (`Selection.FundingChoiceIsBestIff`).
- Outlier rejection with zero dispersion freezes a price for good (`MarketCache.ThreeEqualQuotesFreeze`; exactly when:
  `RobustStats.OnlyOnePassesIffMajority`). Warm-up is described as consecutive good samples; rejected samples do
  not reset it (`MarketCache.WarmIffEnoughSamples`).
- "Missing key (never expected)" in the worker is reachable, and harmless
  (`IncrementalDetection.EmptyHandedPassIsReachable`, `IncrementalDetection.GroupsIffWrittenSincePass`).
- A sweep's old stamp shortens a cooldown, and a cooldown does not hold back updates
  (`Lifecycle.LateStampShortensCooldown`, `Lifecycle.UpdateDuringCooldown`).
- Sub-threshold updates move the baseline, so a slow drift of any total size is absorbed
  (`Lifecycle.SlowDriftIsSilent`; exactly when: `Lifecycle.SilentIffStepsAreSmall`).
- The kill switch wears off, and sooner when pressed on a venue already offline with a partial streak
  (`Health.KillSwitchWearsOff`, `Health.SecondSwitchKeepsStreak`).
- The slow-node penalty does not make every provider under the ceiling outrank a slow one
  (`RpcPool.SlowCanOutrank`, `RpcPool.RecordSufficesIff`); "never re-probed" providers are un-retired by a success
  (`RpcPool.RpcProviderPool.RecordSuccess`).
- A purchase can be granted and not paid, closed and then granted, confirmed twice, lose its second invoice, or wait
  for reconciliation after a dropped redelivery (`Payments.GrantedThenExpired`, `Payments.ClosedThenGranted`,
  `Payments.ConfirmedTwice`, `Payments.SecondInvoiceIsLost`, `Payments.RedeliveryIsDropped`); a refused unsigned
  callback uses up its identifier (`Payments.UnsignedUsesUpIdentifier`); the callback answers "activated" also when
  the buyer's account is gone (`Payments.PurchaseTables.Handle`).
- Concurrent alerts overrun the Free quota by up to their number minus one (`Quota.OverrunIsReached`).

## Model

| member | source | states |
|---|---|---|
| `Mathx.VwapFillPrice` | src/scanner/mathx.py:47-64 | the level-by-level loop computes the volume-weighted fill: cost of the size over the size, none when the size is not positive or the book is short |
| `Mathx.FillableIffWithinDepth` | src/scanner/mathx.py:47-64 | a book with positive quantities fills exactly the sizes above zero and up to its depth |
| `Mathx.WalkIsCheapest` | src/scanner/mathx.py:54-64 | walking a sorted book from the top is the cheapest way to take a size from it: no split over the levels costs less |
| `Mathx.SlipMonotone` | src/scanner/mathx.py:47-71 | on a sorted positive book, slippage against the top never falls as the size grows |
| `Mathx.MaxFillableWithinSlippage` | src/scanner/mathx.py:74-99 | the two nested loops, walk and 40-step bisection, compute the recursive size limit |
| `Mathx.BookLimitIsExact` | src/scanner/mathx.py:74-99 | that limit is the boundary of the tolerance: positive, fillable, every smaller size within tolerance, and either the whole depth or exceeded by one more level quantity over 2^40 |
| `Mathx.SwapKeepsProduct` | src/scanner/mathx.py:102-114 | a swap keeps the product of the reserves for the fee-reduced input, never drains the pool, and has the closed-form output |
| `Mathx.ImpactIsLinear` | src/scanner/mathx.py:117-123 | price impact over the zero-size price is exactly the fee-reduced input over the reserve |
| `Mathx.AmmMaxSizeWithinSlippage` | src/scanner/mathx.py:126-155 | the 60-step loop computes the recursive bisection |
| `Mathx.PoolLimitIsExact` | src/scanner/mathx.py:126-155 | the bisection refines the closed form min(reserve, reserve*tol/(100(1-fee))), from below and to within reserve/2^60 |
| `LiquidityLeg.BuyFillAtOrAboveBest` | src/scanner/profit/liquidity_leg.py:60-65 | a buy fill on a book or pool is never below the top price |
| `LiquidityLeg.SellFillAtOrBelowBest` | src/scanner/profit/liquidity_leg.py:98-117 | a sell fill is positive and never above the top price |
| `LiquidityLeg.PoolFeeFitsInSlippage` | src/scanner/profit/liquidity_leg.py:137-153 | a pool fee is always contained in the gap between fill and spot, on both sides |
| `LiquidityLeg.PoolBuyMeans` | src/scanner/profit/liquidity_leg.py:87-117 | a purchase from a pool of any positive size is priced from its published reserves and tier (0.3% without one) |
| `LiquidityLeg.PoolSellMeans` | src/scanner/profit/liquidity_leg.py:87-117 | likewise a sale, of the coins the size is worth at the spot |
| `LiquidityLeg.FillWorsensWithSize` | src/scanner/profit/liquidity_leg.py:60-117 | on every kind of leg a smaller size fills when a larger one does, at a price no worse |
| `LiquidityLeg.LimitIsWithinTolerance` | src/scanner/profit/liquidity_leg.py:67-72 | every size up to a leg's own limit fills within the tolerance that set it: against the top of a book; against a pool's zero-size price, a sale being judged by what it pays for a unit of quote, so that it keeps at least spot times (1 - fee)/(1 + tolerance) |
| `ProfitEngine.FillsAreHonest` | src/scanner/profit/engine.py:26-56 | the coins bought are paid for exactly, and neither fill beats its top price |
| `ProfitEngine.ProfitAccounting` | src/scanner/profit/engine.py:45-113 | exact accounting for all four book and pool combinations: net is what the coins fetch minus size, rate fees, fixed costs and conversion; trading column is rate fees plus uncapped pool fees; slippage column is pure non-negative price impact |
| `ProfitEngine.RoiBound` | src/scanner/profit/engine.py:58-98 | no size returns more than the top spread minus the flat fee rates, conversion and amortised fixed costs, although the sell fee is charged on what the sale fetched |
| `ProfitEngine.Sweep` | src/scanner/profit/engine.py:128-147 | the loop over 25, 50, 75 and 100 percent of saturation collects the fillable breakdowns and the decay profile |
| `ProfitEngine.OptimizeSize` | src/scanner/profit/engine.py:116-172 | the optimizer as a method computes its specification: none without saturation or fill, else the recommended breakdown and its sizing profile |
| `ProfitEngine.RecommendationIsComplete` | src/scanner/profit/engine.py:149-172 | the recommended size clears both profit bars exactly when some swept size does, and then the largest viable position is at least the recommended one |
| `ProfitEngine.RecommendedIsBest` | src/scanner/profit/engine.py:149-158 | the recommended size nets most among the sizes that meet the return bar, or among all that fill when none does, and is the smallest of those that net the same |
| `ProfitEngine.SizingMeans` | src/scanner/profit/engine.py:159-172 | capital and saturation are what both legs allow; the largest viable position is the largest size tried that nets the dollar bar, or the recommended one when none does; the decay pairs each quarter with the return there, zero where it does not fill |
| `ProfitEngine.SizingIff` | src/scanner/profit/engine.py:116-172 | a size is recommended exactly when both legs allow one above zero and one of its four quarters fills |
| `ProfitEngine.SweepFitsBuyLeg` | src/scanner/profit/engine.py:123-147 | every swept size fills on the buy leg within that leg's tolerance |
| `ProfitEngine.SaleFillsIff` | src/scanner/profit/engine.py:50-56 | on a book the sale fills exactly when the coins bought fit in the bids |
| `ProfitEngine.SellLegCanOverrun` | src/scanner/profit/engine.py:50-56 | the sell leg is sized by the coins bought and can exceed its own limit: concrete books where saturation itself does not fill |
| `ProfitEngine.SaleWithinToleranceIf` | src/scanner/profit/liquidity_leg.py:67-72 | the companion: the sale of what the coins bought are worth stays within its own leg's tolerance whenever that worth is within the sell leg's limit |
| `ProfitEngine.BookSaleWithinToleranceIff` | src/scanner/profit/liquidity_leg.py:67-72 | the converse on a book: coins up to the limit stay in tolerance; where the limit is the whole book no more fills, and otherwise one search cell of the limit's level beyond it the sale does not fill or has left the tolerance |
| `ProfitEngine.PoolSaleWithinToleranceIff` | src/scanner/profit/liquidity_leg.py:98-117 | on a pool: the sale stays in tolerance exactly while the coins less the fee are at most that share of the reserve, for coins up to the reserve the closed form of the leg's limit |
| `Assembler.PreGateIsLossless` | src/scanner/assembler.py:181-230 | the pre-gate changes no verdict: a candidate is published with it exactly when it is published without it, for all books, quotes and scores, provided the books' own spread does not exceed the candidate's |
| `Assembler.PreGateNeedsCoveredSpread` | src/scanner/assembler.py:222-230 | without that proviso it does: a candidate the pre-gate rejects and the full pipeline publishes |
| `PreGateExactness.PreGateAgreesIff` | src/scanner/assembler.py:181-230 | exactly: for a candidate and given tops, the pre-gate changes no verdict over all depths, pools and environments if and only if it does not skip a route the tops make publishable (best attainable margin a profit that meets the return bar, tops plausible, fees known, bridge in time) |
| `PreGateExactness.PublishedIsPublishable` | src/scanner/assembler.py:231-338 | one half, for every book, pool and environment: whatever the pipeline publishes, its tops made publishable |
| `PreGateExactness.PublishableIsPublished` | src/scanner/assembler.py:231-338 | the other half: for tops that make a route publishable there are books or pools from which the pipeline publishes it |
| `PreGateExactness.DropIsLosslessIff` | src/scanner/assembler.py:222-230 | for any cheap test: dropping a candidate unseen loses nothing over all books its spread covers exactly when the widest plausible tops it covers do not make it publishable |
| `PreGateExactness.PublishablePassesTopTest` | src/scanner/assembler.py:181-206 | the pre-gate's own test on the spread of the tops never fails for a publishable route |
| `PreGateExactness.TopTestIsNotTheCondition` | src/scanner/assembler.py:181-206 | but passing it does not make a route publishable, as the sell fee is charged on the proceeds: a skipped candidate whose tops pass, where the pre-gate is exact all the same |
| `DeepTrades.RatioCeiling` | src/scanner/profit/engine.py:116-172 | no swept size of any trade fetches more per unit than the tops' ratio, times what a pool must keep out, times the impact that two pools cannot avoid at a quarter of a limit made of whole cells of 2^-60 of a reserve; strictly less with a pool |
| `DeepTrades.PoolLimitInCells` | src/scanner/mathx.py:126-155 | the limit the 60-step bisection finds is a whole number of those cells, as many as the tolerance divided by the kept part allows and no fewer |
| `PreGateExactness.DeepTrade` | src/scanner/profit/engine.py:116-172 | and that ceiling is approached: for every ratio below it there are books and pools of any required saturation whose smallest swept size fetches it (or 3.2, for a book too thin to take what a pool sells that cheaply) |
| `DeepTrades.PublishesWhenSizeClears` | src/scanner/assembler.py:231-338 | a swept size that clears both bars at a profit publishes the route, when the least swept size is tradeable and grosses enough for the gas |
| `Assembler.BelowFloorIsHopeless` | src/scanner/assembler.py:181-230 | at one size, a spread below rate floor plus fixed costs plus bar leaves net at most zero or return below the bar |
| `Assembler.HopelessIsRejected` | src/scanner/assembler.py:231-338 | if every fillable size up to saturation loses money or misses the return bar, the pipeline rejects |
| `Assembler.NoViableSizeGateIsDead` | src/scanner/validation/validator.py:88-99 | on optimizer output the gate on the largest viable position never fires |
| `Assembler.PublishedMeans` | src/scanner/assembler.py:231-338 | what a published signal guarantees: a swept, tradeable size; the coins bought, at no better than the tops, fetch what was paid plus each venue's own taker fee, the quoted withdrawal, gas and bridge where due, the conversion of a cross quote and its net profit, column by column; both bars, the gas share, plausibility, the bridge in time, liquidity, confidence, warm-up, age and both statuses |
| `Assembler.PreGateMeans` | src/scanner/assembler.py:181-230 | the pre-gate rejects exactly on a missing fee or a spread less each leg's own rate and the conversion that misses the return bar |
| `Assembler.FeesAreTheQuotes` | src/scanner/assembler.py:544-601 | every fee is the quote of its own leg or of the candidate, and charged only where it is due |
| `Assembler.TooLittleProfitAtEverySize` | src/scanner/validation/validator.py:88-99 | rejection for too little profit means that no swept size clears both bars |
| `EconomicFloor.BreakevenIsTheDollarBar` | src/scanner/detectors/base.py:153-169 | the funding breakeven is the assembler's dollar bar solved for the annualised rate |
| `EconomicFloor.ReachesThresholdIff` | src/scanner/detectors/base.py:153-169 | a differential reaches the funding threshold exactly when it reaches the minimum and, with the floor on and a position and a hold, the breakeven |
| `FloorExactness.FloorIsExactIff` | src/scanner/detectors/base.py:125-151 | at every size, over all books and pools: what the floor drops is hopeless exactly when estimate/notional times (1 - sell fee) is at most true fixed cost/size plus sell fee times (rates + return bar) |
| `FloorExactness.DetectorFloorIsLossless` | src/scanner/detectors/base.py:125-151 | a dropped candidate would be rejected downstream when that holds at the largest size tried, or a fee has no quote |
| `FloorExactness.PoolSaleIsSafeIff` | src/scanner/detectors/base.py:149-151 | sold to a pool, the condition is estimate/notional at most true fixed cost/size |
| `FloorExactness.EstimateBelowCostIsSafe` | src/scanner/detectors/base.py:149-151 | it holds wherever the estimate is no more than the true cost and the size is within the notional |
| `FloorExactness.LargeTradeIsDropped` | src/scanner/detectors/base.py:149-151 | a size above the amortisation notional: a candidate the floor drops and the pipeline publishes, with the estimate equal to the true cost |
| `FloorExactness.OverestimateIsDropped` | src/scanner/detectors/base.py:149-151 | an estimate above the true gas: a candidate the floor drops and the pipeline publishes, within the amortisation notional |
| `FundingAssembler.CarryPublishesIff` | src/scanner/assembler.py:340-437 | a carry is published exactly when its annualised rate reaches both bars (the return bar on twice the notional), is not implausible, and its size, scores, statuses and snapshot age pass |
| `FundingAssembler.PublishedCarryMeans` | src/scanner/assembler.py:340-437 | what a published carry guarantees: gross, each venue's own taker fee, net and return on the configured position, column by column, both bars and both statuses |
| `FundingAssembler.FundingPruneIsLosslessIff` | src/scanner/detectors/base.py:153-169 | over all environments and ages, the funding threshold drops only carries the assembler rejects exactly when the noise floor is not above (max(minNet/size, 2 minRoi/100) + taker)/hold, or no rate can be published at that size |
| `FundingAssembler.BreakevenIsPublishRateIff` | src/scanner/detectors/base.py:153-169 | the breakeven is the assembler's publish condition exactly when the return bar on twice the notional asks no more than the dollar bar; otherwise it falls short of it |
| `Signals.RouteIsUndirected` | src/domain/signal.py:117-120 | a route has one key whichever way round its venues are bought and sold |
| `Signals.OrderedIff` | src/domain/signal.py:117-120 | the order that decides which venue comes first is the lexicographic one |
| `Signals.SameVenuesIff` | src/domain/signal.py:117-120 | and two routes share their venues in the key only if they join the same two |
| `Signals.SignalSaysRoute` | src/scanner/assembler.py:643-675 | the signal of a candidate names its route, both venues on their own side and the figures of the moment |
| `Signals.SignalKeepsRouteKey` | src/domain/signal.py:207-210 | a signal built from a candidate has the candidate's route key exactly when the quote contains no slash |
| `RobustStats.SortedIsSorted` | src/scanner/mathx.py:14-17 | the order statistic behind the median is an ascending permutation of the window |
| `RobustStats.NoDispersionIffMajority` | src/scanner/mathx.py:20-38 | the median absolute deviation around the median is zero exactly when one value fills more than half of the window |
| `RobustStats.MajorityRejectsAllElse` | src/scanner/mathx.py:29-38 | with such a window, every value other than the majority value is an outlier and the majority value is not |
| `MarketCache.StepKeepsValid` | src/scanner/cache/market_state_cache.py:84-157 | every operation keeps: the pair index names exactly the venues holding a price or book, once each and never an empty entry; only tracked USDT keys hold anything; stored prices have 0 < bid <= ask; warm-up and windows stay within their limits |
| `MarketCache.RunIsExplained` | src/scanner/cache/market_state_cache.py:113-157 | over every run: the cached price is the last accepted, the window holds the newest accepted mids, warm-up is min(N, accepted prices and pool reads since tracking), accepted prices are in time order and within the sanity ceiling of each other |
| `MarketCache.RunHoldsLastBook` | src/scanner/cache/market_state_cache.py:84-157 | over every run: a key holds a book exactly when one was accepted since it was last untracked, and then the last one; it is tracked exactly when it was tracked, as a supported quote, since then |
| `MarketCache.AcceptsBookIff` | src/scanner/cache/market_state_cache.py:142-150 | a book is accepted exactly for a tracked key, uncrossed, with both reserves positive or both sides there |
| `MarketCache.MajorityOfVenuesDecides` | src/scanner/cache/market_state_cache.py:191-210 | no reading is suspect while fewer than two other venues have a price, and where more than half of them show one mid, that mid alone decides |
| `MarketCache.WarmIffEnoughSamples` | src/scanner/cache/market_state_cache.py:253-255 | a pair is warmed up exactly when accepted quotes and pool reads since tracking together reach the threshold |
| `MarketCache.FrozenPriceStays` | src/scanner/cache/market_state_cache.py:121-134 | a mid price that fills more than half of the outlier window is never left again before untracking, however long the run |
| `MarketCache.ThreeEqualQuotesFreeze` | src/scanner/cache/market_state_cache.py:126-157 | in any cache, whatever other venues show: a key without prices fed one reading three times after tracking (four if the first only raises a suspicion) never accepts another mid until untracked |
| `RobustStats.OnlyOnePassesIffMajority` | src/scanner/mathx.py:14-44 | a window of three or more lets a single value pass exactly when that value fills more than half of it |
| `RobustStats.DeviationIff` | src/scanner/mathx.py:41-44 | a deviation exceeds a limit exactly outside that percentage of the reference |
| `MarketCache.UnfrozenTakesAnother` | src/scanner/cache/market_state_cache.py:126-157 | without a majority the reach around the median is positive, and a fresh, sane reading on a pair that fewer than two other venues price is accepted exactly within it |
| `MarketCache.RefusedIff` | src/scanner/cache/market_state_cache.py:113-140 | a reading of a tracked key is refused exactly unless it is sane, no older than the last and within the allowed share of it, and within reach of the median once there are three samples |
| `MarketCache.SupportedQuoteIff` | src/domain/market.py:19-20 | the supported quote in any mixture of cases, and no other |
| `MarketCache.SuspectNeedsConfirmation` | src/scanner/cache/market_state_cache.py:127-134 | over runs: a price far from the other venues is accepted only when the reading judged just before it was far from them too |
| `MarketCache.MarketStateCache.Track` | src/scanner/cache/market_state_cache.py:84-91 | tracks a supported quote, refuses any other |
| `MarketCache.MarketStateCache.Untrack` | src/scanner/cache/market_state_cache.py:93-107 | drops the key from every table, the venue from the pair's index and an emptied index entry |
| `MarketCache.MarketStateCache.IsCrossVenueSuspect` | src/scanner/cache/market_state_cache.py:191-209 | the loop over the pair's other venues computes the deviation test against their median |
| `MarketCache.MarketStateCache.UpsertPrice` | src/scanner/cache/market_state_cache.py:113-140 | the guarded write is the specified step, and listeners are told exactly when the price was accepted |
| `MarketCache.MarketStateCache.UpsertBook` | src/scanner/cache/market_state_cache.py:142-157 | likewise for books; a pool read also counts towards warm-up |
| `Selection.ScanIsCachedQuotes` | src/scanner/cache/market_state_cache.py:174-178 | quotes scanned from a valid cache have 0 < bid <= ask and distinct venues |
| `Selection.ScanIsExact` | src/scanner/detectors/base.py:85-103 | the exchange scan is exactly the online exchanges whose price and book are fresh, with the cached price |
| `Selection.PoolScanIsExact` | src/scanner/detectors/base.py:105-123 | the pool scan is exactly the online pools with a base reserve |
| `Selection.OnePassIsOptimal` | src/scanner/detectors/cex_cex.py:39-56 | one pass finds two venues and a positive spread exactly when some venue bids more than another asks, and no ordered pair of venues shows a greater spread |
| `Selection.TiesGoToTheFirst` | src/scanner/detectors/cex_cex.py:39-48 | of equal quotes the one scanned first is taken |
| `Selection.CexCexEmitsIff` | src/scanner/detectors/cex_cex.py:26-94 | the detector emits, namely its best pair, exactly when a profitable pair exists, its spread is plausible, and it clears the floor or its route key is active |
| `Selection.CexDexDirection` | src/scanner/detectors/cex_dex.py:48-87 | with bid at most ask the direction is decided by the pool price alone: bought below the bid, sold above the ask, left alone between |
| `Selection.PoolSays` | src/scanner/detectors/cex_dex.py:30-40 | a pool's spot is what its reserves say, zero without a base reserve, and its network the named one of its venue |
| `Selection.DexDexEmitsIff` | src/scanner/detectors/dex_dex.py:39-86 | two pools trade exactly when on one network, at different spots, and clearing the floor or active; the cheaper is bought |
| `Selection.CrossEmitsIff` | src/scanner/detectors/cross_chain.py:61-95 | across networks only over a bridge from the cheaper pool's network to the other's, at its flat fee plus gas |
| `Selection.HalfLoopIsDirectedLoop` | src/scanner/detectors/cross_chain.py:46-95 | looking at each unordered pair once emits the same candidates as trying every ordered pair in both directions |
| `Selection.CexCexLooksAt` | src/scanner/detectors/cex_cex.py:26-94 | the exchange detector leaves ambiguous tickers alone and else looks at the whole scan |
| `Selection.CexDexLooksAt` | src/scanner/detectors/cex_dex.py:20-87 | for verified coins every exchange of the scan is tried against every priced pool |
| `Selection.DexDexLooksAt` | src/scanner/detectors/dex_dex.py:19-87 | for verified coins every two priced pools are tried once |
| `Selection.CrossLooksAt` | src/scanner/detectors/cross_chain.py:24-96 | for verified coins every two priced pools on different named networks are tried in the direction that buys the cheaper |
| `Selection.FundingChoiceIsBest` | src/scanner/detectors/funding.py:28-47 | when all venues settle equally often, least and greatest current rate give the largest annualised differential |
| `Selection.MixedIntervalsMisjudge` | src/scanner/detectors/funding.py:37-52 | with different intervals the chosen pair can lose what the opposite one would earn |
| `Selection.FundingEmitsIff` | src/scanner/detectors/funding.py:28-78 | the detector looks at the first online rate that is least and the first that is greatest, and emits one carry, long the first and short the second, exactly when there are two rates, at different venues, both settlements at least 120 seconds away, and the yearly differential reaches the threshold or the route is active |
| `Selection.EmittedCarryIsExtreme` | src/scanner/detectors/funding.py:28-78 | what is emitted is long where the current rate is least of all online venues and short where it is greatest; its spread is their yearly difference and it names the earlier settlement |
| `Selection.FundingChoiceIsBestIff` | src/scanner/detectors/funding.py:37-52 | for any number of venues the choice is right whatever they pay exactly when their intervals are all equal |
| `Selection.EmittedIsGated` | src/scanner/detectors/base.py:85-122 | every spot candidate rests on two online venues of the right kind with young enough data, carries the cache's prices for its sides, and a positive spread computed from them |
| `EventRouting.UnreachedDetectionsAreUnchanged` | src/scanner/engine.py:69-87 | a write leaves every detection outside its group and symbol exactly as it was, and a refused write leaves all of them |
| `EventRouting.LatestRateIsKept` | src/scanner/cache/market_state_cache.py:159-166 | a funding write leaves one rate for each asset and venue: the one written, and of the others what was there |
| `EventRouting.EmitsOnlyIfEligible` | src/scanner/engine.py:455-497 | a detector that emits anything for a pair is eligible for it |
| `EventRouting.EligibleScanIsFullScan` | src/scanner/engine.py:412-446 | scanning the detectors that are due and eligible finds exactly what scanning all due ones finds |
| `EventRouting.EligibleIff` | src/scanner/engine.py:448-497 | a detector is eligible exactly with enough online venues of its kinds holding the pair, pools on two named networks for cross-chain, two online rates for funding |
| `DetectionLoops.MemoContext.BeginTick` | src/scanner/detectors/base.py:67-83 | a new tick empties the memo, which is then coherent with any cache |
| `DetectionLoops.MemoContext.CexPrices` | src/scanner/detectors/base.py:85-103 | a memoised exchange scan equals a fresh one, empty results included |
| `DetectionLoops.MemoContext.DexBooks` | src/scanner/detectors/base.py:105-122 | likewise for pool books |
| `DetectionLoops.BestPair` | src/scanner/detectors/cex_cex.py:39-51 | the single loop tracks the first cheapest ask and the first dearest positive bid |
| `DetectionLoops.CexCexDetector` | src/scanner/detectors/cex_cex.py:26-94 | the detector with its early exits computes its specification |
| `DetectionLoops.CexDexDetector` | src/scanner/detectors/cex_dex.py:20-87 | the nested loops compute the specification |
| `DetectionLoops.PoolPairs` | src/scanner/detectors/dex_dex.py:39-87 | the pairwise index loops visit each unordered pair once, in order |
| `DetectionLoops.DexDexDetector` | src/scanner/detectors/dex_dex.py:19-87 | the detector computes its specification |
| `DetectionLoops.CrossChainDetector` | src/scanner/detectors/cross_chain.py:24-96 | the detector computes its specification |
| `DetectionLoops.CollapseKeepsBest` | src/scanner/engine.py:319-330 | collapsing keeps one candidate per route, only candidates found, and for each route the widest spread |
| `DetectionLoops.DetectSymbol` | src/scanner/engine.py:279-330 | the detection half of a pass, sharing one memo, yields the collapsed output of exactly the chosen detectors |
| `EventQueue.PutKeepsValid` | src/scanner/priority/scheduler.py:58-65 | a put keeps: pending keys are exactly the queued keys, each once; enqueued minus dequeued is what is queued; a cleared event means an empty queue |
| `EventQueue.RunKeepsValid` | src/scanner/priority/scheduler.py:24-100 | over every run of puts and gets pending keys, counters and event stay consistent |
| `EventQueue.GetKeepsValid` | src/scanner/priority/scheduler.py:67-81 | so does a get, which finds nothing exactly when the queue is empty |
| `EventQueue.PendingCount` | src/scanner/priority/scheduler.py:83-90 | the number of pending keys, of queued items, and the counter difference are equal |
| `EventQueue.Tier1IsServed` | src/scanner/priority/scheduler.py:67-81 | a tier-1 item at position k is served within 2(k+1) gets whatever is put meanwhile |
| `EventQueue.Tier2IsServed` | src/scanner/priority/scheduler.py:67-81 | a tier-2 item at position k is served within 4(k+1) gets whatever is put meanwhile |
| `EventQueue.Tier3IsServed` | src/scanner/priority/scheduler.py:67-81 | a tier-3 item at position k is served within 4(k+1+d) gets, d of them spent on tier 2 |
| `EventQueue.Tier3CanStarve` | src/scanner/priority/scheduler.py:67-81 | no bound without d: a busy tier 2 can take any number of gets |
| `EventQueue.PutIsServed` | src/scanner/priority/scheduler.py:58-100 | a new item is served within the bound of its own tier for the items before it; one whose key is queued changes nothing |
| `EventQueue.GetServesHead` | src/scanner/priority/scheduler.py:67-100 | a get hands out the head of the tier it is at, the event being cleared only when nothing is queued |
| `EventQueue.PriorityEventQueue.Put` | src/scanner/priority/scheduler.py:58-65 | the object coalesces by key and otherwise appends to its tier, as specified |
| `EventQueue.PriorityEventQueue.TryGet` | src/scanner/priority/scheduler.py:67-81 | one pass of the get loop serves the first non-empty tier of the rotation, or clears the event |
| `IncrementalDetection.NoWriteIsLost` | src/scanner/engine.py:222-262 | after an accepted write the first pass over its symbol, in any run of writes, dequeues and drains, includes the write's group; until then the group stays owed and the symbol queued or in flight |
| `IncrementalDetection.PassRunsOnlyTriggered` | src/scanner/engine.py:222-304 | a pass re-runs only the detectors that its groups trigger, and all when it holds none |
| `IncrementalDetection.EmptyHandedPassIsReachable` | src/scanner/engine.py:257-262 | a pass that finds no groups is reachable, and then runs every detector |
| `IncrementalDetection.GroupsIffWrittenSincePass` | src/scanner/engine.py:222-304 | in every run a symbol holds groups exactly when something was accepted for it since the last pass over it, which is when its next pass finds any |
| `IncrementalDetection.RunKeepsUpToDate` | src/scanner/engine.py:222-304 | in every run each detector not owed a pass last reported what it would report now |
| `IncrementalDetection.QuiescentIsFullScan` | src/scanner/engine.py:222-304 | with the queue empty and the worker idle, incremental output equals a full scan, for every routed symbol and detector |
| `IncrementalDetection.GroupTracker.OnCacheWrite` | src/scanner/engine.py:222-228 | accumulates the venue's group, then queues the symbol |
| `IncrementalDetection.GroupTracker.OnFundingWrite` | src/scanner/engine.py:230-236 | accumulates the funding group on the USDT symbol, then queues it |
| `IncrementalDetection.GroupTracker.DrainGroups` | src/scanner/engine.py:257-262 | takes the symbol's groups and forgets them; all groups when there are none |
| `Lifecycle.StoreAnswers` | src/scanner/lifecycle/cooldown.py:38-55 | neither an expiry with its purge nor a query changes the answer for another route; an expiry blocks its own route for exactly its duration |
| `Lifecycle.StoreHolds` | src/scanner/lifecycle/cooldown.py:38-55 | what the store holds after an expiry, a purge and a query |
| `Lifecycle.NewSignalsAreSeparated` | src/scanner/lifecycle/manager.py:54-92 | two publications of a route as new are separated by an expiry, and the second comes no earlier than the cooldown after the stamp of the last expiry |
| `Lifecycle.NewSignalsAreFarApart` | src/scanner/lifecycle/manager.py:54-120 | where no expiry of the route in between is stamped before the first publication, they are at least the cooldown apart on the clock |
| `Lifecycle.NewIff` | src/scanner/lifecycle/manager.py:54-92 | over runs: a signal is published as new exactly when its route is inactive and its cooldown since the stamp of its last expiry has passed, if it has one |
| `Lifecycle.LateStampShortensCooldown` | src/scanner/lifecycle/manager.py:122-130 | a sweep that finds a signal past its time and takes it out later than its stamp, as a suspended one does, shortens the gap by exactly the delay, for any stamp |
| `Lifecycle.UpdateDuringCooldown` | src/scanner/lifecycle/manager.py:63-86 | a route taken up silently in its cooldown is published as an update within it |
| `Lifecycle.SilentIffStepsAreSmall` | src/scanner/lifecycle/manager.py:63-80 | any sequence of updates of an active route is silent exactly when each keeps the ranking and changes the profit insignificantly against the update before it |
| `Lifecycle.SlowDriftIsSilent` | src/scanner/lifecycle/manager.py:63-80 | so a profit drifting by less than the threshold at a time is never published, however far it moves and whenever the updates come |
| `Lifecycle.UpdatesNeverPostponeExpiry` | src/scanner/lifecycle/manager.py:47-78 | for every type but funding, an active route expires at first timestamp plus time-to-live, however often it is updated |
| `Lifecycle.ActiveIsLastAdmitted` | src/scanner/lifecycle/manager.py:47-92 | over runs: what is active is the signal last admitted with the first timestamp; a funding carry expires at its own next settlement, any other signal at its time-to-live after that timestamp |
| `Lifecycle.SignificantIff` | src/scanner/lifecycle/cooldown.py:57-62 | a change of profit is significant exactly when it leaves the band of the threshold around what it was, upwards or downwards |
| `Lifecycle.CooldownStore.OnExpired` | src/scanner/lifecycle/cooldown.py:38-46 | starts the cooldown, purging elapsed entries when large; none for a non-positive duration |
| `Lifecycle.CooldownStore.InCooldown` | src/scanner/lifecycle/cooldown.py:48-55 | answers whether the route is blocked and drops an elapsed entry |
| `Lifecycle.LifecycleManager.Admit` | src/scanner/lifecycle/manager.py:54-92 | new, update or suppressed, with the new active set and store as specified |
| `Lifecycle.LifecycleManager.SweepExpired` | src/scanner/lifecycle/manager.py:122-130 | exactly the signals past their time leave; they are counted, and each enters its cooldown |
| `Lifecycle.LifecycleManager.ForceExpireVenue` | src/scanner/lifecycle/manager.py:132-139 | exactly the signals touching the venue leave; they are counted, and each enters its cooldown |
| `Lifecycle.LifecycleManager.ForceExpireDelisted` | src/scanner/lifecycle/manager.py:141-148 | exactly the signals of the pair leave; they are counted, and each enters its cooldown |
| `Lifecycle.LifecycleManager.CloseIfSpreadGone` | src/scanner/lifecycle/manager.py:150-161 | the route leaves if it was active |
| `Health.RecoversIff` | src/scanner/status/health_registry.py:103-134 | a venue in maintenance or offline returns in one step exactly on a stream-bearing success (any, if it never streamed) completing the required number in a row |
| `Health.OfflineNeedsSilence` | src/scanner/status/health_registry.py:136-152 | over runs: a venue goes offline only by hand, on a hard failure, or on a soft failure that ends the required number in a row with no stream data since longer than the idle timeout |
| `Health.StalenessCheckMeans` | src/scanner/status/health_registry.py:160-207 | over runs, from the newest tick: with one stage an online venue goes to maintenance exactly when the tick is older than the threshold; with two, it degrades past the threshold and an online or degraded one goes to maintenance past the longer limit; nothing else changes |
| `Health.StaleIsNotOnline` | src/scanner/status/health_registry.py:160-207 | no venue stays online through a check that finds it stale |
| `Health.FailureMeans` | src/scanner/status/health_registry.py:136-152 | over runs: a hard failure always ends offline, a soft one exactly after silence and enough failures since the last success |
| `Health.SuccessMeans` | src/scanner/status/health_registry.py:103-134 | over runs: when a success brings a venue online |
| `Health.CallbacksTraceStatus` | src/scanner/status/health_registry.py:209-219 | over runs: the callbacks of a venue form a chain from unknown, each leaving the status the last one announced for another, and end at its present status |
| `Health.RecoveryNeedsStreak` | src/scanner/status/health_registry.py:103-152 | over runs: a venue that has streamed returns only on a stream-bearing success ending a stretch, without failure or change of status, of at least the configured number of successes |
| `Health.DegradedIsBetween` | src/scanner/status/health_registry.py:160-207 | degraded is entered only from online by a staleness check and left to online only on a stream-bearing success; unknown is never re-entered |
| `Health.KillSwitchWearsOff` | src/scanner/engine.py:204-208 | from any state, a venue switched off by hand is back after exactly max(1, required - streak) stream ticks, where the streak survives only if it was offline already |
| `Health.SecondSwitchKeepsStreak` | src/scanner/status/health_registry.py:209-219 | pressed a second time, the switch holds for one tick |
| `Health.HealthRegistry.Transition` | src/scanner/status/health_registry.py:209-219 | exactly one callback per actual change of status |
| `Health.HealthRegistry.RecordSuccess` | src/scanner/status/health_registry.py:103-134 | the update in place is the specified step, with its callback |
| `Health.HealthRegistry.RecordFailure` | src/scanner/status/health_registry.py:136-152 | likewise for failures |
| `Health.HealthRegistry.CheckStaleness` | src/scanner/status/health_registry.py:160-207 | likewise for the one- and two-stage staleness check |
| `OfflineExpiry.OutagesAreCleared` | src/scanner/engine.py:715-726 | over every interleaving: an active route touching a venue that may not signal has a pending task that will visit it; with no task pending every active route has both venues allowed |
| `OfflineExpiry.PublishedIsAdmitted` | src/scanner/engine.py:342-358 | what the pipeline publishes on the statuses of the moment is admitted: its route touches exactly the two venues the gates looked at |
| `OfflineExpiry.TaskFinishes` | src/scanner/lifecycle/manager.py:132-139 | left alone a task expires exactly the listed active routes touching its venue and is gone |
| `OfflineExpiry.OutageWindow` | src/scanner/engine.py:715-726 | between outage and task the route is still active |
| `Payments.EveryRunIsSettledOnce` | src/services/purchase_service.py:131-202 | over every interleaving of checkouts, callbacks, reconciliation, closes and crashes: paid implies granted, at most one grant per purchase, to its user for its amount, and revenue is the sum over granted purchases |
| `Payments.TerminalStaysTerminal` | src/domain/purchase.py:31-44 | a paid or closed purchase never changes status again |
| `Payments.CheckoutsAreResumed` | src/services/purchase_service.py:65-85 | over every run a user has at most one open purchase |
| `Payments.RunKeepsRecord` | src/services/purchase_service.py:100-119 | over every run: a purchase once invoiced never goes back, keeps its first invoice until paid, and a paid one keeps its row |
| `Payments.UninterruptedSettles` | src/services/purchase_service.py:131-177 | a settlement run through leaves an open purchase paid and granted once, adding no grant if there was one |
| `Payments.RevenueIsAmounts` | src/database/repositories/misc_repos.py:42-46 | the revenue sum over billing rows equals the sum of the granted purchases' amounts |
| `Payments.SoloRunsConfirmOnceFromStart` | src/services/payments/reconciler.py:73-93 | while settlements of a purchase do not overlap it is confirmed at most once and only when paid |
| `Payments.ConfirmedTwice` | src/services/payments/reconciler.py:73-93 | a callback and a reconciliation of one payment can both confirm it |
| `Payments.ConfirmedTwiceIff` | src/services/purchase_service.py:131-177 | exactly: with nothing more coming in, settlements under way of a payable purchase not confirmed yet can confirm it twice if and only if there are two of them |
| `Payments.GrantedThenExpired` | src/services/purchase_service.py:147-177 | granted does not mean paid: the purchase can be closed before the write of PAID |
| `Payments.ClosedThenGranted` | src/services/purchase_service.py:140-155 | nor does closed mean never granted: a close between the status check and the grant |
| `Payments.ClosedCanBeGrantedIff` | src/services/purchase_service.py:140-155 | exactly: a closed, ungranted purchase of a known user can still be granted if and only if some settlement is past its status check and about to grant it |
| `Payments.GrantedAndNeverClosed` | src/services/purchase_service.py:131-177 | a granted purchase that no step closed is paid, or open and one settlement run through, charging nothing more, makes it paid |
| `Payments.SecondInvoiceIsLost` | src/services/purchase_service.py:65-110 | a resumed checkout's second invoice is not recorded; when the first expires, paying the second grants nothing |
| `Payments.RedeliveryIsDropped` | src/services/payments/webhook.py:94-105 | a callback cut off after it was recorded is ignored when delivered again |
| `Payments.GuardsThenSettle` | src/services/payments/webhook.py:77-139 | the handler's guards in front of a settlement, as one case distinction |
| `Payments.SettlementAlone` | src/services/purchase_service.py:131-177 | a settlement left alone, as one case distinction |
| `Payments.PurchaseTables.Close` | src/services/purchase_service.py:188-202 | a close moves an open purchase, is silent when already there, raises otherwise |
| `Payments.PurchaseTables.ActivateLifetime` | src/services/subscription_service.py:57-101 | one grant per purchase; none without the user |
| `Payments.PurchaseTables.MarkPaid` | src/services/purchase_service.py:131-177 | the method in one go is the settlement process run alone |
| `Payments.PurchaseTables.Handle` | src/services/payments/webhook.py:77-152 | the whole new state is the guards and settlement run alone plus one confirmation if paid; duplicates change nothing, and bad signatures, unknown purchases, mismatches and paid purchases change nothing but that the update's identifier is recorded |
| `Payments.JudgedOnlyIfUnseen` | src/services/payments/webhook.py:94-105 | a callback is judged only if its identifier is unrecorded; otherwise it changes nothing, whatever it says |
| `Payments.SeenIffRecorded` | src/services/payments/webhook.py:94-105 | over runs: an identifier is recorded exactly when some callback bearing it was, signed or not |
| `Payments.UnsignedUsesUpIdentifier` | src/services/payments/webhook.py:94-110 | so after an unsigned callback a signed one with its identifier is taken for a duplicate |
| `RpcPool.StreakIsTrailing` | src/scanner/adapters/rpc_pool.py:208-248 | over runs: the streak counter is the failures since the last success, its flag says whether any was not a timeout, scores and timeout rates stay in [0, 1] |
| `RpcPool.AnswersAreInRotation` | src/scanner/adapters/rpc_pool.py:208-225 | over runs: a provider that has not failed since its last answer is in rotation |
| `RpcPool.BucketsFollowRank` | src/scanner/adapters/rpc_pool.py:172-193 | the sort key never inverts two ranks, and tells apart any more than a tenth apart |
| `RpcPool.TripsIff` | src/scanner/adapters/rpc_pool.py:250-283 | when a failure retires a provider, when it trips the breaker, and until when, as equivalences: the first cooldown is the base, half of it for a plain RPC error, and each further one twice the last up to the maximum |
| `RpcPool.LeavesRotationOnlyAfterStreak` | src/scanner/adapters/rpc_pool.py:229-283 | over runs: out of rotation only on an authentication failure or a streak at its threshold, doubled if all timeouts, and unless retired for at most the maximum cooldown |
| `RpcPool.RankIsMonotone` | src/scanner/adapters/rpc_pool.py:101-133 | a provider no worse in every respect ranks no lower |
| `RpcPool.FastRanksNoLowerIff` | src/scanner/adapters/rpc_pool.py:101-133 | a provider under the latency ceiling ranks no lower than one past it exactly when the lead of the slow one in score, timeouts, recency and stability is at most 0.5 plus the difference of their latency terms |
| `RpcPool.HistoryIsRemembered` | src/scanner/adapters/rpc_pool.py:208-248 | over every history: score and timeout rate together never exceed one, the score is one exactly while nothing failed, and a latency means an answer |
| `RpcPool.PenaltySufficesIff` | src/scanner/adapters/rpc_pool.py:113-122 | over all providers of two given scores and latencies that keep that invariant, the fast one ranks no lower exactly when it never failed or the scores differ by no more than the latency terms and a fifth of the fast one's score |
| `RpcPool.RecordSufficesIff` | src/scanner/adapters/rpc_pool.py:101-133 | over histories: for two given orders of answers and failures and two latencies, the fast one ranks no lower whenever the calls were made and however they failed exactly when the lead in score, a fifth of what the fast score misses and the widest gap in recency and stability come to at most the penalty and the difference of the latency terms |
| `RpcPool.SlowCanOutrank` | src/scanner/adapters/rpc_pool.py:113-122 | so the promise fails: two histories from new providers, both in rotation, after which the one past the ceiling is in a higher ranking bucket than the one under it |
| `RpcPool.OrderIsBestFirst` | src/scanner/adapters/rpc_pool.py:166-200 | the order lists exactly the healthy providers once each, paid ones first and by falling bucket; else the non-retired one nearest recovery; nothing exactly when all are retired |
| `RpcPool.BestLatencyIsLeast` | src/scanner/adapters/rpc_pool.py:178-184 | the yardstick of the latency term is the least latency any provider has shown |
| `RpcPool.EqualsKeepTheirTurn` | src/scanner/adapters/rpc_pool.py:180-194 | providers ranking alike are tried in rotation order |
| `RpcPool.RpcProviderPool.NextOrder` | src/scanner/adapters/rpc_pool.py:166-200 | returns that order and advances the round-robin start |
| `RpcPool.RpcProviderPool.RecordSuccess` | src/scanner/adapters/rpc_pool.py:208-227 | updates exactly the provider with the URL, as specified |
| `RpcPool.RpcProviderPool.RecordFailure` | src/scanner/adapters/rpc_pool.py:229-283 | likewise for failures |
| `Quota.Allowance` | src/services/signal_access_service.py:76-103 | the budget loop shows, in order, every signal already delivered and the first remaining new ones |
| `Quota.ShownChargesWithinBudget` | src/services/signal_access_service.py:90-101 | what is shown would charge at most the remaining budget |
| `Quota.ShownIff` | src/services/signal_access_service.py:90-101 | of a list without repetitions exactly the signals delivered before are shown, and the others with fewer than the remaining number of others before them |
| `Quota.SerialFlowsWithinQuota` | src/services/signal_access_service.py:105-130 | flows that never overlap keep the ledger within the quota |
| `Quota.AlertsOverrunByLessThanK` | src/services/notification_service.py:263-279 | with at most k alerts between check and charge, ledger plus in flight stays within quota - 1 + k |
| `Quota.OverrunIsReached` | src/services/notification_service.py:263-279 | that bound is reached |
| `Quota.ConcurrentFlowsBounded` | src/services/signal_access_service.py:76-130 | with list pages as well, k flows stay within k quotas |
| `Quota.DeliveryLedger.Record` | src/database/repositories/delivery_repo.py:41-54 | idempotent: a slot is consumed exactly for a signal not delivered before |
| `Quota.DeliveryLedger.RecordDeliveries` | src/services/signal_access_service.py:115-135 | the count returned is the growth of the ledger |
| `SpreadCollapse.KeysAgree` | src/scanner/detectors/base.py:171-180 | the key the detector asks for, the candidate's key and the key of a signal built on the route are the same |
| `SpreadCollapse.BelowFloorFailsPreGate` | src/scanner/assembler.py:222-230 | below the detector's floor means rejected by the pre-gate with a closing reason |
| `SpreadCollapse.CollapsedSpreadEndsRoute` | src/scanner/engine.py:342-358 | an active exchange route, both of whose taker rates are known, and whose best spread is positive and plausible but no longer clears the floor is still emitted, rejected by the pre-gate with a closing reason, and gone from the active set afterwards |

## Left out

- Decimal's 28 digits, float error, and falling back to the system clock when a time of zero is passed: numbers are reals and times are parameters.
- Iteration order of Python sets and of the active dictionary: the pair index is kept in the order venues were first written; expiry loops take their keys in any order.
- Hot reload of configuration during a run, and rebuilding of the detection context.
- Network clients, WebSocket loops, bot handlers, formatting, localisation, migrations, logging, metrics and detector counters: no effect on the decisions modelled.
- Confidence, liquidity-score, risk and ranking formulas: their results are inputs of the validator model.
- PreGateExactness.PreGateAgreesIff: assumes the ranges validated at start, and a cross-quote conversion of at most the whole notional, on which no range is enforced; depth, pools, fees of pools and environments are unrestricted.
- FloorExactness.FloorIsExactIff: speaks of one size over all books; which sizes are tried depends on the saturation of the books at hand, and FloorExactness.DetectorFloorIsLossless asks for the largest.
- The fee cache and the gas estimate's loop over networks: fee quotes are inputs, present or absent.
- Detector exceptions: a pool book with a base reserve and no quote reserve, or a failing detector, is swallowed by the engine; here such a pool has spot zero.
- Removal of cache entries by untracking, ageing of data and changes of health raise no event in the engine; `IncrementalDetection` covers writes, and the reconciliation scan is covered by `EventRouting`.
- Reconciliation cadence (which detectors are due): a set given to the scan.
- `set_top100` and the classification of assets into tiers: the tier of a put is arbitrary.
- A cancelled wait inside the queue's get: one pass of the loop is one step.
- Signature checking and JSON parsing of callbacks, the amount comparison and the invoice's asset: booleans and names in `Payments.Update`.
- `PurchaseService.settle` and admin comps: no caller in the repository reaches them.
- Isolation anomalies of the database: every transaction is atomic; two racing activations, or two first taps on Buy, are two transactions in some order.
- `uuid` identities of purchases and routes: a fresh identifier, and an injective function of the route key.
- ValidationContext's gate on unverified tokens is modelled but always passes, as the assembler sets it.
- ProfitEngine.SweepFitsBuyLeg: speaks of the buy leg only, since the sell leg does not stay within its tolerance (ProfitEngine.SellLegCanOverrun).
- EventQueue.Tier3IsServed: carries the number of gets spent on tier 2, since no bound without it holds (EventQueue.Tier3CanStarve).
- Payments.SoloRunsConfirmOnceFromStart: assumes settlements of the purchase do not overlap, since otherwise it is false (Payments.ConfirmedTwice, Payments.ConfirmedTwiceIff).
- Upper-casing of quote assets covers ASCII letters only.
