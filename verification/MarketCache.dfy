/** The in-memory market state (src/scanner/cache/market_state_cache.py): what is admitted, what the
    pair index says, and what a run of writes can make of a price. */
module MarketCache {
  import opened Prelude
  import opened Market
  import opened RobustStats

  type Key = (string, Pair)

  datatype CacheConfig = CacheConfig(
    outlierWindowTicks: nat,
    outlierMadK: real,
    maxSaneSpreadPct: real,
    crossVenueDeviationPct: real,
    warmupSamples: nat)

  /** The cache as a value. Absent counters, flags and windows read as zero, false and empty.
      `index` lists the venues of a pair in the order they were first written. */
  datatype Cache = Cache(
    prices: map<Key, PriceQuote>,
    books: map<Key, OrderBook>,
    index: map<Pair, seq<string>>,
    tracked: set<Key>,
    windows: map<Key, seq<real>>,
    warmup: map<Key, nat>,
    suspect: map<Key, bool>)
  {
    function VenuesOf(pair: Pair): seq<string> {
      if pair in index then index[pair] else []
    }

    function Window(key: Key): seq<real> {
      if key in windows then windows[key] else []
    }

    function Warmup(key: Key): nat {
      if key in warmup then warmup[key] else 0
    }

    predicate Suspected(key: Key) {
      key in suspect && suspect[key]
    }

    predicate Holds(key: Key) {
      key in prices || key in books
    }
  }

  const EMPTY := Cache(map[], map[], map[], {}, map[], map[], map[])

  function UpperChar(c: char): char {
    if 'a' <= c <= 'z' then (c as int - 32) as char else c
  }

  function Upper(s: string): string {
    if s == "" then "" else [UpperChar(s[0])] + Upper(s[1..])
  }

  predicate IsSupportedQuote(quote: string) {
    Upper(quote) == "USDT"
  }

  /** The supported quote, in whichever case it is written. */
  lemma SupportedQuoteIff(quote: string)
    ensures IsSupportedQuote(quote) <==>
      |quote| == 4 && quote[0] in {'u', 'U'} && quote[1] in {'s', 'S'} && quote[2] in {'d', 'D'}
      && quote[3] in {'t', 'T'}
  {
    UpperLength(quote);
    if |quote| == 4 {
      assert Upper(quote) == [UpperChar(quote[0]), UpperChar(quote[1]), UpperChar(quote[2]), UpperChar(quote[3])] by {
        assert Upper(quote[1..]) == [UpperChar(quote[1])] + Upper(quote[1..][1..]);
        assert quote[1..][1..] == quote[2..] && quote[2..][1..] == quote[3..];
        assert Upper(quote[3..]) == [UpperChar(quote[3])] + Upper("");
      }
    }
  }

  lemma {:induction false} UpperLength(s: string)
    ensures |Upper(s)| == |s|
  {
    if s != "" {
      UpperLength(s[1..]);
    }
  }

  function AddVenue(venues: seq<string>, venue: string): seq<string> {
    if venue in venues then venues else venues + [venue]
  }

  function RemoveVenue(venues: seq<string>, venue: string): (r: seq<string>)
    ensures forall v :: v in r <==> v in venues && v != venue
  {
    if venues == [] then []
    else if venues[0] == venue then RemoveVenue(venues[1..], venue)
    else [venues[0]] + RemoveVenue(venues[1..], venue)
  }

  // ── operations ──

  function Tracked(c: Cache, key: Key): Cache {
    if IsSupportedQuote(key.1.quote) then c.(tracked := c.tracked + {key}) else c
  }

  function Untracked(c: Cache, key: Key): Cache {
    var rest := RemoveVenue(c.VenuesOf(key.1), key.0);
    Cache(
      c.prices - {key}, c.books - {key},
      if rest == [] then c.index - {key.1} else c.index[key.1 := rest],
      c.tracked - {key}, c.windows - {key}, c.warmup - {key}, c.suspect - {key})
  }

  predicate ValidPrice(cfg: CacheConfig, c: Cache, key: Key, q: PriceQuote, now: real) {
    && q.bid > 0.0 && q.ask > 0.0 && q.last > 0.0
    && q.bid <= q.ask
    && q.ts <= now + 2.0
    && (key in c.prices ==>
          q.ts >= c.prices[key].ts && PctDeviation(q.Mid(), c.prices[key].Mid()) <= cfg.maxSaneSpreadPct)
  }

  /** Mid prices the first n other venues of the pair currently show. */
  function OtherMids(c: Cache, key: Key, n: nat): (mids: seq<real>)
    requires n <= |c.VenuesOf(key.1)|
    ensures |mids| <= n
  {
    if n == 0 then []
    else
      var v := c.VenuesOf(key.1)[n - 1];
      OtherMids(c, key, n - 1)
      + (if v != key.0 && (v, key.1) in c.prices
        && c.prices[(v, key.1)].Mid() > 0.0 then [c.prices[(v, key.1)].Mid()] else [])
  }

  predicate CrossVenueSuspect(cfg: CacheConfig, c: Cache, key: Key, q: PriceQuote) {
    var others := OtherMids(c, key, |c.VenuesOf(key.1)|);
    |others| >= 2 && PctDeviation(q.Mid(), Median(others)) > cfg.crossVenueDeviationPct
  }

  datatype Verdict = Refused | Unconfirmed | Accepted

  function JudgePrice(cfg: CacheConfig, c: Cache, key: Key, q: PriceQuote, now: real): Verdict {
    if key !in c.tracked || !ValidPrice(cfg, c, key, q, now)
       || IsMadOutlier(q.Mid(), c.Window(key), cfg.outlierMadK) then Refused
    else if CrossVenueSuspect(cfg, c, key, q) && !c.Suspected(key) then Unconfirmed
    else Accepted
  }

  function Bumped(cfg: CacheConfig, c: Cache, key: Key): map<Key, nat> {
    if c.Warmup(key) < cfg.warmupSamples then c.warmup[key := c.Warmup(key) + 1] else c.warmup
  }

  function PriceWritten(cfg: CacheConfig, c: Cache, key: Key, q: PriceQuote, now: real): Cache {
    match JudgePrice(cfg, c, key, q, now)
    case Refused => c
    case Unconfirmed => c.(suspect := c.suspect[key := true])
    case Accepted =>
      c.(suspect := c.suspect[key := CrossVenueSuspect(cfg, c, key, q)],
         windows := c.windows[key := Pushed(c.Window(key), q.Mid(), cfg.outlierWindowTicks)],
         prices := c.prices[key := q],
         index := c.index[key.1 := AddVenue(c.VenuesOf(key.1), key.0)],
         warmup := Bumped(cfg, c, key))
  }

  predicate AcceptsBook(c: Cache, key: Key, book: OrderBook) {
    key in c.tracked && !book.IsCrossed() && !book.IsEmptySide()
  }

  function BookWritten(cfg: CacheConfig, c: Cache, key: Key, book: OrderBook): Cache {
    if !AcceptsBook(c, key, book) then c
    else
      c.(books := c.books[key := book],
         index := c.index[key.1 := AddVenue(c.VenuesOf(key.1), key.0)],
         warmup := if book.poolAddress.Some? then Bumped(cfg, c, key) else c.warmup)
  }

  predicate IsWarmedUp(cfg: CacheConfig, c: Cache, key: Key) {
    c.Warmup(key) >= cfg.warmupSamples
  }

  // ── the invariant of the cache ──

  ghost predicate Distinct(venues: seq<string>) {
    forall i, j :: 0 <= i < j < |venues| ==> venues[i] != venues[j]
  }

  /** The pair index names exactly the venues holding a price or book of the pair, each once, and has
      no empty entry. */
  ghost predicate IndexExact(c: Cache) {
    && (forall pair :: pair in c.index ==> c.index[pair] != [] && Distinct(c.index[pair]))
    && (forall v: string, pair: Pair :: v in c.VenuesOf(pair) <==> c.Holds((v, pair)))
  }

  /** Only tracked keys of a supported quote hold anything, and what they hold was checked. */
  ghost predicate AdmittedAt(cfg: CacheConfig, c: Cache, key: Key) {
    && (c.Holds(key) || key in c.windows || key in c.warmup || key in c.suspect ==> key in c.tracked)
    && (key in c.tracked ==> IsSupportedQuote(key.1.quote))
    && (key in c.prices ==> 0.0 < c.prices[key].bid <= c.prices[key].ask && c.prices[key].last > 0.0)
    && (key in c.books ==> !c.books[key].IsCrossed() && !c.books[key].IsEmptySide())
    && |c.Window(key)| <= cfg.outlierWindowTicks && c.Warmup(key) <= cfg.warmupSamples
  }

  ghost predicate AdmittedOnly(cfg: CacheConfig, c: Cache) {
    forall key: Key :: AdmittedAt(cfg, c, key)
  }

  ghost predicate Valid(cfg: CacheConfig, c: Cache) {
    IndexExact(c) && AdmittedOnly(cfg, c)
  }

  lemma {:induction false} RemoveKeepsDistinct(venues: seq<string>, venue: string)
    requires Distinct(venues)
    ensures Distinct(RemoveVenue(venues, venue))
  {
    if venues != [] {
      var rest := RemoveVenue(venues[1..], venue);
      RemoveKeepsDistinct(venues[1..], venue);
      forall k | 0 <= k < |rest| ensures rest[k] != venues[0] {
        assert rest[k] in venues[1..];
      }
    }
  }

  lemma IndexAfterAdd(before: Cache, after: Cache, key: Key)
    requires IndexExact(before)
    requires after.index == before.index[key.1 := AddVenue(before.VenuesOf(key.1), key.0)]
    requires forall k: Key :: after.Holds(k) <==> before.Holds(k) || k == key
    ensures IndexExact(after)
  {
    forall v: string, pair: Pair ensures v in after.VenuesOf(pair) <==> after.Holds((v, pair)) {
      assert v in before.VenuesOf(pair) <==> before.Holds((v, pair));
    }
  }

  lemma IndexAfterRemove(c: Cache, key: Key)
    requires IndexExact(c)
    ensures IndexExact(Untracked(c, key))
  {
    var after := Untracked(c, key);
    RemoveKeepsDistinct(c.VenuesOf(key.1), key.0);
    forall v: string, pair: Pair ensures v in after.VenuesOf(pair) <==> after.Holds((v, pair)) {
      assert v in c.VenuesOf(pair) <==> c.Holds((v, pair));
    }
  }

  lemma PriceKeepsIndex(cfg: CacheConfig, c: Cache, key: Key, q: PriceQuote, now: real)
    requires IndexExact(c)
    ensures IndexExact(PriceWritten(cfg, c, key, q, now))
  {
    hide ValidPrice, IsMadOutlier, CrossVenueSuspect, Bumped;
    var after := PriceWritten(cfg, c, key, q, now);
    if JudgePrice(cfg, c, key, q, now).Accepted? {
      IndexAfterAdd(c, after, key);
    } else {
      assert forall v: string, pair: Pair :: after.Holds((v, pair)) == c.Holds((v, pair));
      assert after.index == c.index;
    }
  }

  lemma PriceKeepsOwnEntry(cfg: CacheConfig, c: Cache, key: Key, q: PriceQuote, now: real)
    requires AdmittedAt(cfg, c, key)
    ensures AdmittedAt(cfg, PriceWritten(cfg, c, key, q, now), key)
  {
    hide IsMadOutlier, CrossVenueSuspect, PctDeviation, IsSupportedQuote, Pushed, AddVenue;
  }

  lemma PriceKeepsOtherEntry(cfg: CacheConfig, c: Cache, key: Key, q: PriceQuote, now: real, k: Key)
    requires AdmittedAt(cfg, c, k) && k != key
    ensures AdmittedAt(cfg, PriceWritten(cfg, c, key, q, now), k)
  {
    hide JudgePrice, CrossVenueSuspect, IsSupportedQuote, Pushed, AddVenue;
  }

  lemma UpsertPriceKeepsValid(cfg: CacheConfig, c: Cache, key: Key, q: PriceQuote, now: real)
    requires Valid(cfg, c)
    ensures Valid(cfg, PriceWritten(cfg, c, key, q, now))
  {
    hide IndexExact, AdmittedAt, PriceWritten;
    PriceKeepsIndex(cfg, c, key, q, now);
    forall k: Key ensures AdmittedAt(cfg, PriceWritten(cfg, c, key, q, now), k) {
      if k == key {
        PriceKeepsOwnEntry(cfg, c, key, q, now);
      } else {
        PriceKeepsOtherEntry(cfg, c, key, q, now, k);
      }
    }
  }

  lemma UpsertBookKeepsValid(cfg: CacheConfig, c: Cache, key: Key, book: OrderBook)
    requires Valid(cfg, c)
    ensures Valid(cfg, BookWritten(cfg, c, key, book))
  {
    if AcceptsBook(c, key, book) {
      var after := BookWritten(cfg, c, key, book);
      assert IndexExact(after) by {
        hide AcceptsBook;
        IndexAfterAdd(c, after, key);
      }
      forall k: Key ensures AdmittedAt(cfg, after, k) {
        hide IndexExact, IsSupportedQuote;
        assert AdmittedAt(cfg, c, k) && AdmittedAt(cfg, c, key);
      }
    }
  }

  lemma TrackKeepsValid(cfg: CacheConfig, c: Cache, key: Key)
    requires Valid(cfg, c)
    ensures Valid(cfg, Tracked(c, key))
  {
    hide AdmittedAt, IndexExact, Tracked;
    TrackKeepsIndex(c, key);
    forall k: Key ensures AdmittedAt(cfg, Tracked(c, key), k) {
      TrackKeepsEntry(cfg, c, key, k);
    }
  }

  lemma TrackKeepsIndex(c: Cache, key: Key)
    requires IndexExact(c)
    ensures IndexExact(Tracked(c, key))
  {
    hide IsSupportedQuote;
    assert forall v: string, pair: Pair :: Tracked(c, key).Holds((v, pair)) == c.Holds((v, pair));
  }

  lemma TrackKeepsEntry(cfg: CacheConfig, c: Cache, key: Key, k: Key)
    requires AdmittedAt(cfg, c, k)
    ensures AdmittedAt(cfg, Tracked(c, key), k)
  {
    hide IsSupportedQuote;
  }

  lemma UntrackKeepsValid(cfg: CacheConfig, c: Cache, key: Key)
    requires Valid(cfg, c)
    ensures Valid(cfg, Untracked(c, key))
  {
    hide IsSupportedQuote, RemoveVenue;
    IndexAfterRemove(c, key);
    forall k: Key ensures AdmittedAt(cfg, Untracked(c, key), k) {
      hide IndexExact;
      assert AdmittedAt(cfg, c, k);
    }
  }

  // ── runs ──

  datatype Op =
    | TrackOp(key: Key)
    | UntrackOp(key: Key)
    | PriceOp(key: Key, quote: PriceQuote, now: real)
    | BookOp(key: Key, book: OrderBook)

  function Step(cfg: CacheConfig, c: Cache, op: Op): Cache {
    match op
    case TrackOp(key) => Tracked(c, key)
    case UntrackOp(key) => Untracked(c, key)
    case PriceOp(key, q, now) => PriceWritten(cfg, c, key, q, now)
    case BookOp(key, book) => BookWritten(cfg, c, key, book)
  }

  lemma StepKeepsValid(cfg: CacheConfig, c: Cache, op: Op)
    requires Valid(cfg, c)
    ensures Valid(cfg, Step(cfg, c, op))
  {
    hide Valid, Tracked, Untracked, PriceWritten, BookWritten;
    match op {
      case TrackOp(key) => TrackKeepsValid(cfg, c, key);
      case UntrackOp(key) => UntrackKeepsValid(cfg, c, key);
      case PriceOp(key, q, now) => UpsertPriceKeepsValid(cfg, c, key, q, now);
      case BookOp(key, book) => UpsertBookKeepsValid(cfg, c, key, book);
    }
  }

  /** The cache after the first n operations of a run that starts empty. */
  function After(cfg: CacheConfig, ops: seq<Op>, n: nat): Cache
    requires n <= |ops|
    decreases n
  {
    if n == 0 then EMPTY else Step(cfg, After(cfg, ops, n - 1), ops[n - 1])
  }

  /** The quotes of a key accepted since it was last untracked. */
  function AcceptedQuotes(cfg: CacheConfig, ops: seq<Op>, n: nat, key: Key): seq<PriceQuote>
    requires n <= |ops|
    decreases n
  {
    if n == 0 then []
    else
      var before := AcceptedQuotes(cfg, ops, n - 1, key);
      match ops[n - 1]
      case UntrackOp(k) => if k == key then [] else before
      case PriceOp(k, q, now) =>
        if k == key && JudgePrice(cfg, After(cfg, ops, n - 1), k, q, now).Accepted? then before + [q] else before
      case _ => before
  }

  /** The pool reads of a key accepted since it was last untracked. */
  function AcceptedPools(cfg: CacheConfig, ops: seq<Op>, n: nat, key: Key): nat
    requires n <= |ops|
    decreases n
  {
    if n == 0 then 0
    else
      var before := AcceptedPools(cfg, ops, n - 1, key);
      match ops[n - 1]
      case UntrackOp(k) => if k == key then 0 else before
      case BookOp(k, book) =>
        if k == key && AcceptsBook(After(cfg, ops, n - 1), k, book)
          && book.poolAddress.Some? then before + 1 else before
      case _ => before
  }

  function Min(a: nat, b: nat): nat {
    if a <= b then a else b
  }

  function Mids(quotes: seq<PriceQuote>): (r: seq<real>)
    ensures |r| == |quotes|
  {
    if quotes == [] then [] else Mids(quotes[..|quotes| - 1]) + [quotes[|quotes| - 1].Mid()]
  }

  /** The newest `cap` values. */
  function Newest(values: seq<real>, cap: nat): seq<real> {
    if |values| <= cap then values else values[|values| - cap..]
  }

  /** Successive quotes are in time order and no further apart than the sanity ceiling. */
  ghost predicate Continuous(cfg: CacheConfig, quotes: seq<PriceQuote>) {
    forall i :: 0 < i < |quotes| ==>
      quotes[i - 1].ts <= quotes[i].ts
      && PctDeviation(quotes[i].Mid(), quotes[i - 1].Mid()) <= cfg.maxSaneSpreadPct
  }

  /** What the cache holds for a key is determined by what it accepted since the key was last untracked. */
  ghost predicate Explained(cfg: CacheConfig, c: Cache, key: Key, quotes: seq<PriceQuote>, pools: nat) {
    && (key in c.prices <==> quotes != [])
    && (quotes != [] ==> c.prices[key] == quotes[|quotes| - 1])
    && c.Window(key) == Newest(Mids(quotes), cfg.outlierWindowTicks)
    && c.Warmup(key) == Min(cfg.warmupSamples, |quotes| + pools)
    && Continuous(cfg, quotes)
  }

  lemma PushNewest(values: seq<real>, x: real, cap: nat)
    ensures Pushed(Newest(values, cap), x, cap) == Newest(values + [x], cap)
  {
  }

  lemma ContinuousExtends(cfg: CacheConfig, quotes: seq<PriceQuote>, q: PriceQuote)
    requires Continuous(cfg, quotes)
    requires quotes != [] ==>
      quotes[|quotes| - 1].ts <= q.ts && PctDeviation(q.Mid(), quotes[|quotes| - 1].Mid()) <= cfg.maxSaneSpreadPct
    ensures Continuous(cfg, quotes + [q])
  {
    hide PctDeviation;
  }

  lemma AcceptExtends(cfg: CacheConfig, c: Cache, key: Key, q: PriceQuote, now: real, quotes: seq<PriceQuote>,
                      pools: nat)
    requires Explained(cfg, c, key, quotes, pools) && JudgePrice(cfg, c, key, q, now).Accepted?
    ensures Explained(cfg, PriceWritten(cfg, c, key, q, now), key, quotes + [q], pools)
  {
    hide IsMadOutlier, CrossVenueSuspect, PctDeviation, Pushed, Newest, Continuous;
    var all := quotes + [q];
    assert all[..|all| - 1] == quotes;
    PushNewest(Mids(quotes), q.Mid(), cfg.outlierWindowTicks);
    ContinuousExtends(cfg, quotes, q);
  }

  lemma OtherKeysUntouched(cfg: CacheConfig, c: Cache, op: Op, key: Key, quotes: seq<PriceQuote>, pools: nat)
    requires Explained(cfg, c, key, quotes, pools) && op.key != key
    ensures Explained(cfg, Step(cfg, c, op), key, quotes, pools)
  {
    hide Mids, Continuous, Newest, Step, Cache.Window, Cache.Warmup;
    OtherKeySame(cfg, c, op, key);
  }

  lemma OtherKeySame(cfg: CacheConfig, c: Cache, op: Op, key: Key)
    requires op.key != key
    ensures var after := Step(cfg, c, op);
      && (key in after.prices <==> key in c.prices) && (key in c.prices ==> after.prices[key] == c.prices[key])
      && after.Window(key) == c.Window(key) && after.Warmup(key) == c.Warmup(key)
  {
    hide Pushed, AddVenue, RemoveVenue, IsSupportedQuote, CrossVenueSuspect, JudgePrice, AcceptsBook;
  }

  /** In every run: the cached price is the last one accepted, the outlier window holds the newest
      accepted mids, warm-up counts accepted prices and pool reads up to its limit, and accepted prices
      are in time order within the sanity ceiling of each other. */
  lemma {:induction false} RunIsExplained(cfg: CacheConfig, ops: seq<Op>, n: nat, key: Key)
    requires n <= |ops|
    ensures Valid(cfg, After(cfg, ops, n))
    ensures Explained(cfg, After(cfg, ops, n), key, AcceptedQuotes(cfg, ops, n, key), AcceptedPools(cfg, ops, n, key))
    decreases n
  {
    hide Step, JudgePrice, AcceptsBook;
    if n == 0 {
      EmptyIsExplained(cfg, key);
    } else {
      RunIsExplained(cfg, ops, n - 1, key);
      var c, op := After(cfg, ops, n - 1), ops[n - 1];
      var quotes, pools := AcceptedQuotes(cfg, ops, n - 1, key), AcceptedPools(cfg, ops, n - 1, key);
      StepKeepsValid(cfg, c, op);
      if op.key != key {
        OtherKeysUntouched(cfg, c, op, key, quotes, pools);
      } else {
        OwnStepExplained(cfg, c, op, quotes, pools);
      }
    }
  }

  /** The last book of a key accepted since it was last untracked, if any. */
  function AcceptedBook(cfg: CacheConfig, ops: seq<Op>, n: nat, key: Key): Option<OrderBook>
    requires n <= |ops|
    decreases n
  {
    if n == 0 then None
    else
      var before := AcceptedBook(cfg, ops, n - 1, key);
      match ops[n - 1]
      case UntrackOp(k) => if k == key then None else before
      case BookOp(k, book) => if k == key && AcceptsBook(After(cfg, ops, n - 1), k, book) then Some(book) else before
      case _ => before
  }

  /** A book is accepted exactly for a tracked key, when its best prices do not cross, and when both its reserves
      are positive or, where one is missing or zero, both its sides are there. */
  lemma AcceptsBookIff(c: Cache, key: Key, book: OrderBook)
    ensures AcceptsBook(c, key, book) <==>
      var pool := book.reserveBase.Some? && book.reserveBase.value != 0.0
                  && book.reserveQuote.Some? && book.reserveQuote.value != 0.0;
      && key in c.tracked
      && (if pool then book.reserveBase.value > 0.0 && book.reserveQuote.value > 0.0
          else book.bids != [] && book.asks != [])
      && (book.bids != [] && book.asks != [] && book.bids[0].price != 0.0 && book.asks[0].price != 0.0 ==>
            book.bids[0].price < book.asks[0].price)
  {
  }

  /** In every run: a key holds a book exactly when one was accepted since it was last untracked, and then the
      last one accepted; and it is tracked exactly when it was tracked, as a supported quote, since it was last
      untracked. */
  lemma {:induction false} RunHoldsLastBook(cfg: CacheConfig, ops: seq<Op>, n: nat, key: Key)
    requires n <= |ops|
    ensures var c, last := After(cfg, ops, n), AcceptedBook(cfg, ops, n, key);
      if last.Some? then key in c.books && c.books[key] == last.value else key !in c.books
    ensures key in After(cfg, ops, n).tracked <==>
      exists i :: 0 <= i < n && ops[i] == TrackOp(key) && IsSupportedQuote(key.1.quote)
                  && forall j :: i < j < n ==> ops[j] != UntrackOp(key)
    decreases n
  {
    hide JudgePrice, AcceptsBook, Pushed, AddVenue, RemoveVenue, Bumped, IsSupportedQuote, CrossVenueSuspect;
    if n > 0 {
      RunHoldsLastBook(cfg, ops, n - 1, key);
      BooksOfStep(cfg, After(cfg, ops, n - 1), ops[n - 1], key);
      hide Step;
    }
  }

  lemma BooksOfStep(cfg: CacheConfig, c: Cache, op: Op, key: Key)
    ensures var after := Step(cfg, c, op);
      && (key in after.tracked <==>
            if op == TrackOp(key) && IsSupportedQuote(key.1.quote) then true
            else key in c.tracked && op != UntrackOp(key))
      && (if op.BookOp? && op.key == key && AcceptsBook(c, key, op.book)
          then key in after.books && after.books[key] == op.book
          else if op == UntrackOp(key) then key !in after.books
          else (key in after.books <==> key in c.books) && (key in c.books ==> after.books[key] == c.books[key]))
  {
    hide JudgePrice, AcceptsBook, Pushed, AddVenue, RemoveVenue, Bumped, IsSupportedQuote, CrossVenueSuspect;
  }

  /** A key is warmed up exactly when enough prices and pool reads were accepted since it was last tracked,
      in a row or not. */
  lemma WarmIffEnoughSamples(cfg: CacheConfig, ops: seq<Op>, n: nat, key: Key)
    requires n <= |ops|
    ensures IsWarmedUp(cfg, After(cfg, ops, n), key)
            <==> |AcceptedQuotes(cfg, ops, n, key)| + AcceptedPools(cfg, ops, n, key) >= cfg.warmupSamples
  {
    RunIsExplained(cfg, ops, n, key);
  }

  lemma EmptyIsExplained(cfg: CacheConfig, key: Key)
    ensures Valid(cfg, EMPTY) && Explained(cfg, EMPTY, key, [], 0)
  {
  }

  lemma OwnStepExplained(cfg: CacheConfig, c: Cache, op: Op, quotes: seq<PriceQuote>, pools: nat)
    requires Explained(cfg, c, op.key, quotes, pools)
    ensures var after := Step(cfg, c, op);
      match op
      case TrackOp(key) => Explained(cfg, after, key, quotes, pools)
      case UntrackOp(key) => Explained(cfg, after, key, [], 0)
      case PriceOp(key, q, now) =>
        Explained(cfg, after, key, if JudgePrice(cfg, c, key, q, now).Accepted? then quotes + [q] else quotes, pools)
      case BookOp(key, book) =>
        Explained(cfg, after, key, quotes, if AcceptsBook(c, key, book)
          && book.poolAddress.Some? then pools + 1 else pools)
  {
    match op {
      case TrackOp(key) => OtherwiseUntouched(cfg, c, op, quotes, pools);
      case PriceOp(key, q, now) =>
        if JudgePrice(cfg, c, key, q, now).Accepted? {
          AcceptExtends(cfg, c, key, q, now, quotes, pools);
        } else {
          OtherwiseUntouched(cfg, c, op, quotes, pools);
        }
      case UntrackOp(key) => UntrackForgets(cfg, c, key);
      case BookOp(key, book) => BookCounts(cfg, c, key, book, quotes, pools);
    }
  }

  lemma OtherwiseUntouched(cfg: CacheConfig, c: Cache, op: Op, quotes: seq<PriceQuote>, pools: nat)
    requires Explained(cfg, c, op.key, quotes, pools)
    requires op.TrackOp? || (op.PriceOp? && !JudgePrice(cfg, c, op.key, op.quote, op.now).Accepted?)
    ensures Explained(cfg, Step(cfg, c, op), op.key, quotes, pools)
  {
    hide JudgePrice, CrossVenueSuspect, Continuous, Mids, Newest, IsSupportedQuote;
  }

  lemma UntrackForgets(cfg: CacheConfig, c: Cache, key: Key)
    ensures Explained(cfg, Untracked(c, key), key, [], 0)
  {
    hide RemoveVenue;
  }

  lemma BookCounts(cfg: CacheConfig, c: Cache, key: Key, book: OrderBook, quotes: seq<PriceQuote>, pools: nat)
    requires Explained(cfg, c, key, quotes, pools)
    ensures Explained(cfg, BookWritten(cfg, c, key, book), key, quotes,
                      if AcceptsBook(c, key, book) && book.poolAddress.Some? then pools + 1 else pools)
  {
    hide AcceptsBook, Continuous, Mids, Newest, AddVenue;
  }

  /** The last price of the key that got as far as the cross-venue test, since the key was last untracked. */
  function LastJudged(cfg: CacheConfig, ops: seq<Op>, n: nat, key: Key): (r: Option<nat>)
    requires n <= |ops|
    ensures r.Some? ==> r.value < n && ops[r.value].PriceOp? && ops[r.value].key == key
    decreases n
  {
    if n == 0 then None
    else
      var op := ops[n - 1];
      if op.key != key then LastJudged(cfg, ops, n - 1, key)
      else if op.UntrackOp? then None
      else if op.PriceOp? && !JudgePrice(cfg, After(cfg, ops, n - 1), key, op.quote, op.now).Refused? then Some(n - 1)
      else LastJudged(cfg, ops, n - 1, key)
  }

  /** What the other venues of a pair show: the mid of every venue but this one that has a positive price. */
  lemma {:induction false} OthersShow(c: Cache, key: Key, n: nat, mid: real)
    requires n <= |c.VenuesOf(key.1)|
    ensures mid in OtherMids(c, key, n) <==>
      exists i :: 0 <= i < n && ShowsMid(c, key, c.VenuesOf(key.1)[i], mid)
  {
    if n > 0 {
      OthersShow(c, key, n - 1, mid);
    }
  }

  predicate ShowsMid(c: Cache, key: Key, venue: string, mid: real) {
    venue != key.0 && (venue, key.1) in c.prices && c.prices[(venue, key.1)].Mid() == mid && mid > 0.0
  }

  /** When more than half of them show one mid, that mid alone decides whether a reading is suspect; and no reading
      is while fewer than two others have a price. */
  lemma MajorityOfVenuesDecides(cfg: CacheConfig, c: Cache, key: Key, q: PriceQuote, mid: real)
    ensures var others := OtherMids(c, key, |c.VenuesOf(key.1)|);
      && (|others| < 2 ==> !CrossVenueSuspect(cfg, c, key, q))
      && (|others| >= 2 && Majority(others, mid) ==>
            (CrossVenueSuspect(cfg, c, key, q) <==> PctDeviation(q.Mid(), mid) > cfg.crossVenueDeviationPct))
  {
    var others := OtherMids(c, key, |c.VenuesOf(key.1)|);
    if Majority(others, mid) {
      MajorityIsMedian(others, mid);
    }
  }

  /** The price of operation i departed from the other venues when it was judged. */
  predicate SuspectAt(cfg: CacheConfig, ops: seq<Op>, i: nat)
    requires i < |ops| && ops[i].PriceOp?
  {
    CrossVenueSuspect(cfg, After(cfg, ops, i), ops[i].key, ops[i].quote)
  }

  lemma {:induction false} FlagIsLastJudgement(cfg: CacheConfig, ops: seq<Op>, n: nat, key: Key)
    requires n <= |ops|
    ensures var last := LastJudged(cfg, ops, n, key);
      After(cfg, ops, n).Suspected(key) <==> last.Some? && SuspectAt(cfg, ops, last.value)
    decreases n
  {
    if n > 0 {
      FlagIsLastJudgement(cfg, ops, n - 1, key);
      hide IsMadOutlier, ValidPrice, CrossVenueSuspect, IsSupportedQuote, AddVenue, RemoveVenue, Pushed;
      FlagStep(cfg, After(cfg, ops, n - 1), ops[n - 1], key);
    }
  }

  lemma FlagStep(cfg: CacheConfig, c: Cache, op: Op, key: Key)
    ensures Step(cfg, c, op).Suspected(key) <==>
      if op.key == key && op.UntrackOp? then false
      else if op.key == key && op.PriceOp? && !JudgePrice(cfg, c, key, op.quote, op.now).Refused?
      then CrossVenueSuspect(cfg, c, key, op.quote)
      else c.Suspected(key)
  {
    hide IsMadOutlier, ValidPrice, CrossVenueSuspect, IsSupportedQuote, AddVenue, RemoveVenue, Pushed, Bumped;
  }

  /** A price far from the other venues is accepted only on confirmation: the reading judged just before it
      was far from them too. */
  lemma SuspectNeedsConfirmation(cfg: CacheConfig, ops: seq<Op>, i: nat)
    requires i < |ops| && ops[i].PriceOp? && SuspectAt(cfg, ops, i)
    requires JudgePrice(cfg, After(cfg, ops, i), ops[i].key, ops[i].quote, ops[i].now).Accepted?
    ensures LastJudged(cfg, ops, i, ops[i].key).Some? && SuspectAt(cfg, ops, LastJudged(cfg, ops, i, ops[i].key).value)
  {
    FlagIsLastJudgement(cfg, ops, i, ops[i].key);
  }

  /** Every price of the key the run accepts has this mid. */
  ghost predicate AcceptsOnly(cfg: CacheConfig, c: Cache, ops: seq<Op>, key: Key, mid: real)
    decreases |ops|
  {
    ops == [] ||
    ((ops[0].PriceOp? && ops[0].key == key && JudgePrice(cfg, c, key, ops[0].quote, ops[0].now).Accepted?
      ==> ops[0].quote.Mid() == mid)
     && AcceptsOnly(cfg, Step(cfg, c, ops[0]), ops[1..], key, mid))
  }

  /** A price that has once filled more than half of the outlier window is never left again: until the
      key is untracked, no quote with another mid is ever accepted, however long the run. */
  lemma {:induction false} FrozenPriceStays(cfg: CacheConfig, c: Cache, ops: seq<Op>, key: Key, mid: real)
    requires 3 <= |c.Window(key)| <= cfg.outlierWindowTicks && Majority(c.Window(key), mid)
    requires forall i :: 0 <= i < |ops| ==> ops[i] != UntrackOp(key)
    ensures AcceptsOnly(cfg, c, ops, key, mid)
    decreases |ops|
  {
    hide Step, JudgePrice, Majority;
    if ops != [] {
      FrozenStep(cfg, c, ops[0], key, mid);
      FrozenPriceStays(cfg, Step(cfg, c, ops[0]), ops[1..], key, mid);
    }
  }

  lemma FrozenStep(cfg: CacheConfig, c: Cache, op: Op, key: Key, mid: real)
    requires 3 <= |c.Window(key)| <= cfg.outlierWindowTicks && Majority(c.Window(key), mid) && op != UntrackOp(key)
    ensures var after := Step(cfg, c, op);
      3 <= |after.Window(key)| <= cfg.outlierWindowTicks && Majority(after.Window(key), mid)
    ensures op.PriceOp? && op.key == key && JudgePrice(cfg, c, key, op.quote, op.now).Accepted?
            ==> op.quote.Mid() == mid
  {
    hide IsMadOutlier, CrossVenueSuspect, ValidPrice, Majority, Pushed, AddVenue, RemoveVenue, IsSupportedQuote;
    var after := Step(cfg, c, op);
    if op.PriceOp? && op.key == key && JudgePrice(cfg, c, key, op.quote, op.now).Accepted? {
      MajorityRejectsAllElse(op.quote.Mid(), c.Window(key), mid, cfg.outlierMadK);
      PushKeepsMajority(c.Window(key), mid, cfg.outlierWindowTicks);
      assert after.Window(key) == Pushed(c.Window(key), mid, cfg.outlierWindowTicks);
    } else {
      assert after.Window(key) == c.Window(key);
    }
  }

  /** Conversely a key whose window has no majority, and whose last price is within reach of the median, takes
      another mid with the next reading that is as close to both, on a pair no two other venues price. */
  lemma UnfrozenTakesAnother(cfg: CacheConfig, c: Cache, key: Key, q: PriceQuote, now: real)
    requires key in c.tracked && key in c.prices && |c.Window(key)| >= 3
    requires !Majority(c.Window(key), Median(c.Window(key)))
    requires q.bid > 0.0 && q.bid <= q.ask && q.last > 0.0 && c.prices[key].ts <= q.ts <= now + 2.0
    requires PctDeviation(q.Mid(), c.prices[key].Mid()) <= cfg.maxSaneSpreadPct
    requires |OtherMids(c, key, |c.VenuesOf(key.1)|)| < 2
    ensures JudgePrice(cfg, c, key, q, now).Accepted? <==>
              AbsReal(q.Mid() - Median(c.Window(key)))
              <= cfg.outlierMadK * Mad(c.Window(key), Median(c.Window(key)))
    ensures Mad(c.Window(key), Median(c.Window(key))) > 0.0
  {
    hide Median, Mad, PctDeviation, IsMadOutlier;
    RoomWithoutMajority(q.Mid(), c.Window(key), cfg.outlierMadK);
  }

  lemma WithinReachIff(value: real, window: seq<real>, k: real)
    ensures IsMadOutlier(value, window, k) <==>
      |window| >= 3 && AbsReal(value - Median(window)) > k * Mad(window, Median(window))
  {
    hide Median, Mad;
  }

  /** A reading of a tracked key is refused unless it is sane, no older than the last one and within the allowed
      share of it, and within reach of the median once there are three samples. */
  lemma RefusedIff(cfg: CacheConfig, c: Cache, key: Key, q: PriceQuote, now: real)
    requires key in c.tracked && (key in c.prices ==> c.prices[key].Mid() > 0.0)
    ensures JudgePrice(cfg, c, key, q, now).Refused? <==>
      !(&& 0.0 < q.bid <= q.ask && q.last > 0.0 && q.ts <= now + 2.0
        && (key in c.prices ==>
              var m := c.prices[key].Mid();
              && c.prices[key].ts <= q.ts
              && m - m * cfg.maxSaneSpreadPct / 100.0 <= q.Mid() <= m + m * cfg.maxSaneSpreadPct / 100.0)
        && (|c.Window(key)| >= 3 ==>
              AbsReal(q.Mid() - Median(c.Window(key)))
              <= cfg.outlierMadK * Mad(c.Window(key), Median(c.Window(key)))))
  {
    hide Median, Mad, PctDeviation, IsMadOutlier, CrossVenueSuspect;
    WithinReachIff(q.Mid(), c.Window(key), cfg.outlierMadK);
    if key in c.prices {
      DeviationIff(q.Mid(), c.prices[key].Mid(), cfg.maxSaneSpreadPct);
    }
  }

  /** The cache after the key was fed this reading n times. */
  function Fed(cfg: CacheConfig, c: Cache, key: Key, q: PriceQuote, now: real, n: nat): Cache {
    if n == 0 then c else PriceWritten(cfg, Fed(cfg, c, key, q, now, n - 1), key, q, now)
  }

  /** How many equal readings freeze a new key: three, and one more when the first only raises a suspicion. */
  function FreezingTicks(cfg: CacheConfig, c: Cache, key: Key, q: PriceQuote): nat {
    if CrossVenueSuspect(cfg, c, key, q) && !c.Suspected(key) then 4 else 3
  }

  function Copies(m: real, n: nat): (r: seq<real>)
    ensures |r| == n
  {
    seq(n, i => m)
  }

  /** The key holds k copies of the reading's mid and will take it again. */
  ghost predicate Feeding(cfg: CacheConfig, c0: Cache, c: Cache, key: Key, q: PriceQuote, k: nat) {
    && key in c.tracked && c.Window(key) == Copies(q.Mid(), k) && (key in c.prices ==> c.prices[key] == q)
    && (CrossVenueSuspect(cfg, c, key, q) <==> CrossVenueSuspect(cfg, c0, key, q))
    && (CrossVenueSuspect(cfg, c0, key, q) ==> c.Suspected(key))
  }

  lemma FeedOnce(cfg: CacheConfig, c0: Cache, c: Cache, key: Key, q: PriceQuote, now: real, k: nat)
    requires Feeding(cfg, c0, c, key, q, k) && k < 3 <= cfg.outlierWindowTicks && cfg.maxSaneSpreadPct >= 0.0
    requires q.bid > 0.0 && q.bid <= q.ask && q.last > 0.0 && q.ts <= now + 2.0
    ensures Feeding(cfg, c0, PriceWritten(cfg, c, key, q, now), key, q, k + 1)
  {
    hide CrossVenueSuspect;
    ZeroQuotient(q.Mid());
    var after := PriceWritten(cfg, c, key, q, now);
    assert JudgePrice(cfg, c, key, q, now).Accepted?;
    assert after.Window(key) == Copies(q.Mid(), k + 1);
    SuspicionIsOfOthers(cfg, c, after, key, q);
  }

  lemma ZeroQuotient(x: real)
    ensures PctDeviation(x, x) == 0.0
  {
  }

  /** Whether a reading departs from the other venues does not depend on the key's own entries. */
  lemma SuspicionIsOfOthers(cfg: CacheConfig, c: Cache, after: Cache, key: Key, q: PriceQuote)
    requires forall k :: k != key ==> (k in after.prices <==> k in c.prices)
                                      && (k in c.prices ==> after.prices[k] == c.prices[k])
    requires after.VenuesOf(key.1) == c.VenuesOf(key.1) || after.VenuesOf(key.1) == c.VenuesOf(key.1) + [key.0]
    ensures CrossVenueSuspect(cfg, after, key, q) <==> CrossVenueSuspect(cfg, c, key, q)
  {
    var n := |c.VenuesOf(key.1)|;
    SameOthers(c, after, key, n);
    if |after.VenuesOf(key.1)| == n + 1 {
      assert after.VenuesOf(key.1)[n] == key.0;
      assert OtherMids(after, key, n + 1) == OtherMids(after, key, n);
    }
  }

  lemma {:induction false} SameOthers(c: Cache, after: Cache, key: Key, n: nat)
    requires n <= |c.VenuesOf(key.1)|
    requires forall k :: k != key ==> (k in after.prices <==> k in c.prices)
                                      && (k in c.prices ==> after.prices[k] == c.prices[k])
    requires after.VenuesOf(key.1) == c.VenuesOf(key.1) || after.VenuesOf(key.1) == c.VenuesOf(key.1) + [key.0]
    ensures OtherMids(after, key, n) == OtherMids(c, key, n)
  {
    if n > 0 {
      SameOthers(c, after, key, n - 1);
    }
  }

  /** In any cache, whatever the other venues show: a key that holds no prices and is then tracked and fed one
      reading three times (four, if the first only raises a suspicion) never accepts another mid price before
      it is untracked. */
  lemma ThreeEqualQuotesFreeze(cfg: CacheConfig, c: Cache, key: Key, q: PriceQuote, now: real, ops: seq<Op>)
    requires IsSupportedQuote(key.1.quote) && cfg.outlierWindowTicks >= 3 && cfg.maxSaneSpreadPct >= 0.0
    requires key !in c.prices && c.Window(key) == []
    requires q.bid > 0.0 && q.bid <= q.ask && q.last > 0.0 && q.ts <= now + 2.0
    requires forall i :: 0 <= i < |ops| ==> ops[i] != UntrackOp(key)
    ensures AcceptsOnly(cfg, Fed(cfg, Tracked(c, key), key, q, now, FreezingTicks(cfg, c, key, q)), ops, key, q.Mid())
  {
    hide CrossVenueSuspect, IsSupportedQuote, AcceptsOnly, Tracked, FreezingTicks, PriceWritten;
    var c0, ticks := Tracked(c, key), FreezingTicks(cfg, c, key, q);
    assert ticks >= 3 by { AtLeastThree(cfg, c, key, q); }
    FirstReading(cfg, c, key, q, now);
    FeedThree(cfg, c0, key, q, now, ticks - 3);
    var m, last := q.Mid(), Fed(cfg, c0, key, q, now, ticks);
    hide Fed;
    assert last.Window(key) == [m, m, m];
    assert Majority([m, m, m], m);
    hide Feeding;
    FrozenPriceStays(cfg, last, ops, key, m);
  }

  lemma AtLeastThree(cfg: CacheConfig, c: Cache, key: Key, q: PriceQuote)
    ensures FreezingTicks(cfg, c, key, q) >= 3
  {
  }

  lemma FeedThree(cfg: CacheConfig, c0: Cache, key: Key, q: PriceQuote, now: real, n: nat)
    requires Feeding(cfg, c0, Fed(cfg, c0, key, q, now, n), key, q, 0)
    requires cfg.outlierWindowTicks >= 3 && cfg.maxSaneSpreadPct >= 0.0
    requires q.bid > 0.0 && q.bid <= q.ask && q.last > 0.0 && q.ts <= now + 2.0
    ensures Feeding(cfg, c0, Fed(cfg, c0, key, q, now, n + 3), key, q, 3)
  {
    hide Feeding, PriceWritten;
    FeedOnce(cfg, c0, Fed(cfg, c0, key, q, now, n), key, q, now, 0);
    FeedOnce(cfg, c0, Fed(cfg, c0, key, q, now, n + 1), key, q, now, 1);
    FeedOnce(cfg, c0, Fed(cfg, c0, key, q, now, n + 2), key, q, now, 2);
  }

  /** A first reading that departs from the other venues is held back, and then the next is taken. */
  lemma FirstReading(cfg: CacheConfig, c: Cache, key: Key, q: PriceQuote, now: real)
    requires IsSupportedQuote(key.1.quote) && key !in c.prices && c.Window(key) == []
    requires q.bid > 0.0 && q.bid <= q.ask && q.last > 0.0 && q.ts <= now + 2.0
    ensures var c0 := Tracked(c, key);
      Feeding(cfg, c0, Fed(cfg, c0, key, q, now, FreezingTicks(cfg, c, key, q) - 3), key, q, 0)
  {
    hide CrossVenueSuspect, IsSupportedQuote;
    var c0 := Tracked(c, key);
    SuspicionIsOfOthers(cfg, c, c0, key, q);
    if FreezingTicks(cfg, c, key, q) == 4 {
      var held := PriceWritten(cfg, c0, key, q, now);
      assert JudgePrice(cfg, c0, key, q, now).Unconfirmed?;
      SuspicionIsOfOthers(cfg, c0, held, key, q);
      assert Fed(cfg, c0, key, q, now, 1) == PriceWritten(cfg, Fed(cfg, c0, key, q, now, 0), key, q, now);
    }
  }

  // ── the cache object ──

  class MarketStateCache {
    const cfg: CacheConfig
    var prices: map<Key, PriceQuote>
    var books: map<Key, OrderBook>
    var venuesByPair: map<Pair, seq<string>>
    var tracked: set<Key>
    var priceWindows: map<Key, seq<real>>
    var warmup: map<Key, nat>
    var suspect: map<Key, bool>

    function View(): Cache
      reads this
    {
      Cache(prices, books, venuesByPair, tracked, priceWindows, warmup, suspect)
    }

    constructor (cfg: CacheConfig)
      ensures this.cfg == cfg && View() == EMPTY
      ensures Valid(cfg, View())
    {
      this.cfg := cfg;
      prices, books, venuesByPair, tracked := map[], map[], map[], {};
      priceWindows, warmup, suspect := map[], map[], map[];
      new;
      EmptyIsExplained(cfg, ("", Pair("", "")));
    }

    method Track(key: Key)
      requires Valid(cfg, View())
      modifies this
      ensures View() == Tracked(old(View()), key)
      ensures Valid(cfg, View())
    {
      TrackKeepsValid(cfg, View(), key);
      if IsSupportedQuote(key.1.quote) {
        tracked := tracked + {key};
      }
    }

    method Untrack(key: Key)
      requires Valid(cfg, View())
      modifies this
      ensures View() == Untracked(old(View()), key)
      ensures Valid(cfg, View())
    {
      assert RemoveVenue([], key.0) == [];
      hide Valid, RemoveVenue;
      UntrackKeepsValid(cfg, View(), key);
      tracked, prices, books := tracked - {key}, prices - {key}, books - {key};
      priceWindows, warmup, suspect := priceWindows - {key}, warmup - {key}, suspect - {key};
      if key.1 in venuesByPair {
        var rest := RemoveVenue(venuesByPair[key.1], key.0);
        venuesByPair := if rest == [] then venuesByPair - {key.1} else venuesByPair[key.1 := rest];
      }
    }

    /** Whether the reading departs too far from the median of the other venues of its pair. */
    method IsCrossVenueSuspect(key: Key, q: PriceQuote) returns (r: bool)
      ensures r == CrossVenueSuspect(cfg, View(), key, q)
    {
      var venues := View().VenuesOf(key.1);
      var others: seq<real> := [];
      for i := 0 to |venues|
        invariant others == OtherMids(View(), key, i)
      {
        var v := venues[i];
        if v != key.0 && (v, key.1) in prices && prices[(v, key.1)].Mid() > 0.0 {
          others := others + [prices[(v, key.1)].Mid()];
        }
      }
      if |others| < 2 {
        return false;
      }
      r := PctDeviation(q.Mid(), Median(others)) > cfg.crossVenueDeviationPct;
    }

    method Seed(key: Key, q: PriceQuote)
      modifies `priceWindows, `prices, `venuesByPair, `warmup
      ensures View() == old(View().(
        windows := View().windows[key := Pushed(View().Window(key), q.Mid(), cfg.outlierWindowTicks)],
        prices := View().prices[key := q],
        index := View().index[key.1 := AddVenue(View().VenuesOf(key.1), key.0)],
        warmup := Bumped(cfg, View(), key)))
    {
      hide Pushed, AddVenue;
      priceWindows := priceWindows[key := Pushed(View().Window(key), q.Mid(), cfg.outlierWindowTicks)];
      prices := prices[key := q];
      venuesByPair := venuesByPair[key.1 := AddVenue(View().VenuesOf(key.1), key.0)];
      if View().Warmup(key) < cfg.warmupSamples {
        warmup := warmup[key := View().Warmup(key) + 1];
      }
    }

    /** True when the write was accepted, which is when listeners are told. */
    method UpsertPrice(key: Key, q: PriceQuote, now: real) returns (emitted: bool)
      requires Valid(cfg, View())
      modifies this
      ensures View() == PriceWritten(cfg, old(View()), key, q, now)
      ensures emitted <==> JudgePrice(cfg, old(View()), key, q, now).Accepted?
      ensures Valid(cfg, View())
    {
      hide Valid, ValidPrice, IsMadOutlier, CrossVenueSuspect, Pushed, AddVenue, RemoveVenue, IsSupportedQuote;
      UpsertPriceKeepsValid(cfg, View(), key, q, now);
      ghost var before := View();
      if key !in tracked || !ValidPrice(cfg, View(), key, q, now) {
        return false;
      }
      var window := View().Window(key);
      if IsMadOutlier(q.Mid(), window, cfg.outlierMadK) {
        return false;
      }
      var isSuspect := IsCrossVenueSuspect(key, q);
      if isSuspect {
        var prev := View().Suspected(key);
        suspect := suspect[key := true];
        if !prev {
          return false;
        }
      } else {
        suspect := suspect[key := false];
      }
      assert JudgePrice(cfg, before, key, q, now).Accepted?;
      assert View() == before.(suspect := before.suspect[key := isSuspect]);
      Seed(key, q);
      return true;
    }

    method UpsertBook(key: Key, book: OrderBook) returns (emitted: bool)
      requires Valid(cfg, View())
      modifies this
      ensures View() == BookWritten(cfg, old(View()), key, book)
      ensures emitted <==> AcceptsBook(old(View()), key, book)
      ensures Valid(cfg, View())
    {
      hide Valid;
      UpsertBookKeepsValid(cfg, View(), key, book);
      if key !in tracked {
        return false;
      }
      if book.IsCrossed() || book.IsEmptySide() {
        return false;
      }
      books := books[key := book];
      venuesByPair := venuesByPair[key.1 := AddVenue(View().VenuesOf(key.1), key.0)];
      if book.poolAddress.Some? && View().Warmup(key) < cfg.warmupSamples {
        warmup := warmup[key := View().Warmup(key) + 1];
      }
      return true;
    }
  }
}
