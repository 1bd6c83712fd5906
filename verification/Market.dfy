/** Normalised market data (src/domain/market.py). Decimals and epoch seconds are reals;
    a "BASE/QUOTE" string is the pair of its two halves. */
module Market {
  import opened Prelude

  datatype VenueType = CEX | DEX

  datatype ExchangeStatus = ONLINE | DEGRADED | MAINTENANCE | API_OFFLINE | UNKNOWN {
    /** Online and Degraded venues may produce signals; the others may not. */
    predicate SignalAllowed() {
      ONLINE? || DEGRADED?
    }
  }

  datatype Pair = Pair(base: string, quote: string)

  datatype BookLevel = BookLevel(price: real, qty: real)

  /** Level-2 book of an exchange, or the reserves of a pool. */
  datatype OrderBook = OrderBook(
    bids: seq<BookLevel>,
    asks: seq<BookLevel>,
    receivedAt: real,
    poolAddress: Option<string>,
    poolFeeTier: Option<real>,
    reserveBase: Option<real>,
    reserveQuote: Option<real>)
  {
    function BestBid(): Option<real> {
      if bids == [] then None else Some(bids[0].price)
    }

    function BestAsk(): Option<real> {
      if asks == [] then None else Some(asks[0].price)
    }

    predicate IsCrossed() {
      Truthy(BestBid()) && Truthy(BestAsk()) && bids[0].price >= asks[0].price
    }

    predicate IsEmptySide() {
      if Truthy(reserveBase) && Truthy(reserveQuote)
      then reserveBase.value <= 0.0 || reserveQuote.value <= 0.0
      else bids == [] || asks == []
    }
  }

  /** Python truth value of an optional number: present and not zero. */
  predicate Truthy(x: Option<real>) {
    x.Some? && x.value != 0.0
  }

  datatype PriceSource = WS | REST_RECONCILE | RPC | QUOTE

  datatype PriceQuote = PriceQuote(bid: real, ask: real, last: real, ts: real, receivedAt: real, source: PriceSource) {
    function Mid(): real {
      (bid + ask) / 2.0
    }
  }

  /** Hours between settlements: 1, 4 or 8 on the venues supported. */
  type Hours = h: int | h > 0 witness 8

  datatype FundingRate = FundingRate(
    venue: string,
    currentRate: real,
    nextFundingTime: real,
    intervalHours: Hours,
    receivedAt: real)
}
