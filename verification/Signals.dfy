/** Candidates, signals and the route key they share (src/domain/signal.py). */
module Signals {
  import opened Prelude
  import opened Market
  import opened Config

  datatype LegRef = LegRef(venue: string, venueType: VenueType, price: real, network: Option<string>,
    poolAddress: Option<string>)

  datatype RouteKey = RouteKey(arbType: ArbType, base: string, quote: string, venues: (string, string),
    network: Option<string>)
  {
    predicate Touches(venue: string) {
      venues.0 == venue || venues.1 == venue
    }
  }

  datatype Candidate = Candidate(
    arbType: ArbType,
    base: string,
    quote: string,
    buyLeg: LegRef,
    sellLeg: LegRef,
    grossSpreadPct: real,
    network: Option<string>,
    bridgeName: Option<string>,
    bridgeFeeUsd: Option<real>,
    bridgeTimeSec: Option<int>,
    fundingAnnualizedSpread: Option<real>,
    fundingNextTime: Option<real>)
  {
    function DedupKey(): RouteKey {
      RouteKey(arbType, base, quote, SortedPair(buyLeg.venue, sellLeg.venue), network)
    }
  }

  datatype RankingLevel = TOP | HIGH | MEDIUM | LOW

  datatype Signal = Signal(
    arbType: ArbType,
    coin: string,
    tradingPair: string,
    network: Option<string>,
    buyExchange: string,
    sellExchange: string,
    netProfitUsd: real,
    ranking: RankingLevel,
    timestamp: real,
    expiresAt: real,
    fundingNextTime: Option<real>)
  {
    function DedupKey(): RouteKey {
      RouteKey(arbType, coin, LastSegment(tradingPair), SortedPair(buyExchange, sellExchange), network)
    }
  }

  /** The assembler's signal for a candidate; the numbers come from the profit pipeline. */
  function BuildSignal(cand: Candidate, netProfitUsd: real, ranking: RankingLevel, now: real): Signal {
    Signal(cand.arbType, cand.base, cand.base + "/" + cand.quote, cand.network,
           cand.buyLeg.venue, cand.sellLeg.venue, netProfitUsd, ranking, now, 0.0, cand.fundingNextTime)
  }

  /** What follows the last slash: the source's split("/")[-1]. */
  function LastSegment(s: string): string {
    if '/' in s then LastSegment(s[1..]) else s
  }

  /** Lexicographic order by code point, as Python sorts strings. */
  predicate StrLeq(a: string, b: string) {
    a == "" || (b != "" && (a[0] < b[0] || (a[0] == b[0] && StrLeq(a[1..], b[1..]))))
  }

  function SortedPair(a: string, b: string): (string, string) {
    if StrLeq(a, b) then (a, b) else (b, a)
  }

  lemma {:induction false} StrLeqTotal(a: string, b: string)
    ensures StrLeq(a, b) || StrLeq(b, a)
    ensures StrLeq(a, b) && StrLeq(b, a) ==> a == b
  {
    if a != "" && b != "" && a[0] == b[0] {
      StrLeqTotal(a[1..], b[1..]);
      assert a == [a[0]] + a[1..] && b == [b[0]] + b[1..];
    }
  }

  /** One string sorts before another if it is a prefix of it or has the lower character where they first differ. */
  lemma {:induction false} OrderedIff(a: string, b: string)
    ensures StrLeq(a, b) <==>
      a <= b || exists i :: 0 <= i < |a| && i < |b| && a[..i] == b[..i] && a[i] < b[i]
  {
    if a != "" && b != "" {
      OrderedIff(a[1..], b[1..]);
      if a[0] == b[0] {
        assert a[1..] <= b[1..] <==> a <= b;
        forall i | 0 <= i < |a| && i < |b| && i > 0
          ensures (a[..i] == b[..i] && a[i] < b[i])
                  <==> (a[1..][..i - 1] == b[1..][..i - 1] && a[1..][i - 1] < b[1..][i - 1]) {
          assert a[..i] == [a[0]] + a[1..][..i - 1] && b[..i] == [b[0]] + b[1..][..i - 1];
        }
      } else if a[0] < b[0] {
        assert a[..0] == b[..0];
      }
    }
  }

  /** A route has one key whichever way round its venues are bought and sold. */
  lemma RouteIsUndirected(a: string, b: string)
    ensures SortedPair(a, b) == SortedPair(b, a)
  {
    StrLeqTotal(a, b);
  }

  /** And two routes of the same kind, pair and network share it only if they join the same two venues. */
  lemma SameVenuesIff(a: string, b: string, c: string, d: string)
    ensures SortedPair(a, b) == SortedPair(c, d) <==> (a == c && b == d) || (a == d && b == c)
    ensures StrLeq(SortedPair(a, b).0, SortedPair(a, b).1)
  {
    StrLeqTotal(a, b);
    StrLeqTotal(c, d);
  }

  lemma {:induction false} LastSegmentOfPair(base: string, quote: string)
    ensures LastSegment(base + "/" + quote) == LastSegment(quote)
  {
    var s := base + "/" + quote;
    if base == "" {
      assert s[0] == '/' && s[1..] == quote;
    } else {
      assert s[|base|] == '/';
      assert s[1..] == base[1..] + "/" + quote;
      LastSegmentOfPair(base[1..], quote);
    }
  }

  lemma {:induction false} LastSegmentHasNoSlash(s: string)
    ensures '/' !in LastSegment(s)
  {
    if '/' in s {
      LastSegmentHasNoSlash(s[1..]);
    }
  }

  /** The signal built from a candidate carries the candidate's route key exactly when the quote
      asset contains no slash, which every supported quote satisfies. */
  lemma SignalKeepsRouteKey(cand: Candidate, netProfitUsd: real, ranking: RankingLevel, now: real)
    ensures BuildSignal(cand, netProfitUsd, ranking, now).DedupKey() == cand.DedupKey() <==> '/' !in cand.quote
  {
    LastSegmentOfPair(cand.base, cand.quote);
    LastSegmentHasNoSlash(cand.quote);
  }

  /** What the signal of a candidate says: its route, both venues on their own side, and the figures of the moment. */
  lemma SignalSaysRoute(cand: Candidate, netProfitUsd: real, ranking: RankingLevel, now: real)
    ensures var s := BuildSignal(cand, netProfitUsd, ranking, now);
      && s.arbType == cand.arbType && s.coin == cand.base && s.network == cand.network
      && s.buyExchange == cand.buyLeg.venue && s.sellExchange == cand.sellLeg.venue
      && s.netProfitUsd == netProfitUsd && s.ranking == ranking && s.timestamp == now
      && s.fundingNextTime == cand.fundingNextTime
      && forall v :: s.DedupKey().Touches(v) <==> v == cand.buyLeg.venue || v == cand.sellLeg.venue
  {
    hide LastSegment, StrLeq;
  }
}
