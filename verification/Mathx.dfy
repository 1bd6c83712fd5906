/** Market microstructure arithmetic (src/scanner/mathx.py): walking an order book,
    the constant-product pool, and the two bisections that find size limits.
    Decimals are modelled as reals. */
module Mathx {
  import opened Prelude
  import opened Market

  ghost predicate PositiveBook(levels: seq<BookLevel>) {
    forall i :: 0 <= i < |levels| ==> levels[i].price > 0.0 && levels[i].qty > 0.0
  }

  ghost predicate PositiveQty(levels: seq<BookLevel>) {
    forall i :: 0 <= i < |levels| ==> levels[i].qty > 0.0
  }

  /** Asks: cheapest first. */
  ghost predicate Ascending(levels: seq<BookLevel>) {
    forall i, j :: 0 <= i < j < |levels| ==> levels[i].price <= levels[j].price
  }

  /** Bids: dearest first. */
  ghost predicate Descending(levels: seq<BookLevel>) {
    forall i, j :: 0 <= i < j < |levels| ==> levels[i].price >= levels[j].price
  }

  function Depth(levels: seq<BookLevel>): real {
    if levels == [] then 0.0 else levels[0].qty + Depth(levels[1..])
  }

  // ── walking the book ──

  function Notional(qty: real, price: real): real {
    qty * price
  }

  /** Notional paid when `size` is taken level by level from the top. */
  function Cost(levels: seq<BookLevel>, size: real): real {
    if levels == [] || size <= 0.0 then 0.0
    else if size <= levels[0].qty then Notional(size, levels[0].price)
    else Notional(levels[0].qty, levels[0].price) + Cost(levels[1..], size - levels[0].qty)
  }

  /** What is left of `size` once the whole book has been offered. */
  function Shortfall(levels: seq<BookLevel>, size: real): real {
    if levels == [] || size <= 0.0 then size
    else if size <= levels[0].qty then 0.0
    else Shortfall(levels[1..], size - levels[0].qty)
  }

  function Vwap(levels: seq<BookLevel>, size: real): Option<real> {
    if size <= 0.0 || levels == [] then None
    else if Shortfall(levels, size) > 0.0 then None
    else Some(Cost(levels, size) / size)
  }

  /** The source's loop over the levels computes exactly `Vwap`. */
  method VwapFillPrice(levels: seq<BookLevel>, size: real) returns (r: Option<real>)
    ensures r == Vwap(levels, size)
  {
    hide Notional;
    if size <= 0.0 || levels == [] {
      return None;
    }
    var remaining, notional, i := size, 0.0, 0;
    while i < |levels|
      invariant 0 <= i <= |levels|
      invariant remaining > 0.0
      invariant Cost(levels, size) == notional + Cost(levels[i..], remaining)
      invariant Shortfall(levels, size) == Shortfall(levels[i..], remaining)
    {
      assert levels[i..][0] == levels[i] && levels[i..][1..] == levels[i + 1..];
      var take := MinReal(remaining, levels[i].qty);
      notional := notional + Notional(take, levels[i].price);
      remaining := remaining - take;
      i := i + 1;
      if remaining <= 0.0 {
        break;
      }
    }
    if remaining > 0.0 {
      return None;
    }
    return Some(notional / size);
  }

  lemma {:induction false} ShortfallIsMissingDepth(levels: seq<BookLevel>, size: real)
    requires PositiveQty(levels) && size >= 0.0
    ensures Shortfall(levels, size) == MaxReal(0.0, size - Depth(levels))
    ensures Depth(levels) >= 0.0
  {
    if levels != [] {
      ShortfallIsMissingDepth(levels[1..], MaxReal(0.0, size - levels[0].qty));
    }
  }

  /** A positive book fills exactly the sizes up to its depth. */
  lemma FillableIffWithinDepth(levels: seq<BookLevel>, size: real)
    requires PositiveQty(levels)
    ensures Vwap(levels, size).Some? <==> 0.0 < size <= Depth(levels)
  {
    if size > 0.0 {
      ShortfallIsMissingDepth(levels, size);
    }
  }

  // Facts about single products; the inductive proofs below keep products folded.

  lemma NotionalOrder(k: real, a: real, b: real)
    requires a <= b && k >= 0.0
    ensures Notional(k, a) <= Notional(k, b)
  {
  }

  lemma NotionalSplit(k: real, l: real, a: real)
    ensures Notional(k + l, a) == Notional(k, a) + Notional(l, a)
    ensures Notional(0.0, a) == 0.0
  {
  }

  lemma NotionalNegated(k: real, a: real)
    ensures Notional(k, -a) == -Notional(k, a)
  {
  }

  /** Going from s to t within one level of price c. */
  lemma SameLevelIncrement(p: real, c: real, s: real, t: real)
    requires p <= c && s <= t
    ensures Notional(t, c) - Notional(s, c) >= Notional(t - s, p)
  {
    hide Notional;
    NotionalSplit(s, t - s, c);
    assert s + (t - s) == t;
    NotionalOrder(t - s, p, c);
  }

  /** Beyond size s, every further unit costs at least the floor price p. */
  lemma {:induction false} CostIncrement(levels: seq<BookLevel>, p: real, s: real, t: real)
    requires PositiveQty(levels)
    requires forall i :: 0 <= i < |levels| ==> levels[i].price >= p
    requires 0.0 <= s <= t <= Depth(levels)
    ensures Cost(levels, t) - Cost(levels, s) >= Notional(t - s, p)
  {
    hide Notional;
    NotionalSplit(0.0, 0.0, p);
    if s < t && levels != [] {
      var q, c, rest := levels[0].qty, levels[0].price, levels[1..];
      NotionalSplit(0.0, 0.0, c);
      if t <= q {
        SameLevelIncrement(p, c, s, t);
      } else if s <= q {
        CostIncrement(rest, p, 0.0, t - q);
        SameLevelIncrement(p, c, s, q);
        NotionalSplit(t - q, q - s, p);
        assert (t - q) + (q - s) == t - s;
      } else {
        CostIncrement(rest, p, s - q, t - q);
        assert (t - q) - (s - q) == t - s;
      }
    } else {
      assert t == s;
    }
  }

  /** The average price never improves with size: the law behind every size limit.
      Stated without division: cost(s) * t <= cost(t) * s. */
  lemma {:induction false} AverageMonotone(levels: seq<BookLevel>, s: real, t: real)
    requires PositiveQty(levels) && Ascending(levels)
    requires 0.0 < s <= t <= Depth(levels)
    ensures Notional(t, Cost(levels, s)) <= Notional(s, Cost(levels, t))
  {
    hide Notional;
    var q, p, rest := levels[0].qty, levels[0].price, levels[1..];
    assert forall i :: 0 <= i < |rest| ==> rest[i] == levels[i + 1];
    if s <= q {
      NotionalSplit(0.0, 0.0, p);
      CostIncrement(levels, p, 0.0, t);
      FlatAverage(p, s, t, Cost(levels, t));
    } else {
      var a, b := s - q, t - q;
      AverageMonotone(rest, a, b);
      CostIncrement(rest, p, a, b);
      CombineAverages(p, q, a, b, Cost(rest, a), Cost(rest, b));
      assert b + q == t && a + q == s;
    }
  }

  lemma FlatAverage(p: real, s: real, t: real, costT: real)
    requires s > 0.0 && costT >= Notional(t, p)
    ensures Notional(t, Notional(s, p)) <= Notional(s, costT)
  {
    NotionalOrder(s, Notional(t, p), costT);
  }

  lemma CombineAverages(p: real, q: real, a: real, b: real, costA: real, costB: real)
    requires q > 0.0 && Notional(b, costA) <= Notional(a, costB)
    requires costB - costA >= Notional(b - a, p)
    ensures Notional(b + q, Notional(q, p) + costA) <= Notional(a + q, Notional(q, p) + costB)
  {
    NotionalOrder(q, Notional(b - a, p), costB - costA);
  }

  /** Walking the book top-down is the cheapest way to buy: any other split of the same
      quantity over the levels costs at least as much. */
  lemma {:induction false} WalkIsCheapest(levels: seq<BookLevel>, split: seq<real>)
    requires PositiveQty(levels) && Ascending(levels) && |split| == |levels|
    requires forall i :: 0 <= i < |split| ==> 0.0 <= split[i] <= levels[i].qty
    ensures 0.0 <= Total(split) <= Depth(levels)
    ensures SplitCost(levels, split) >= Cost(levels, Total(split))
  {
    hide Notional;
    if levels != [] {
      var rest, tail := levels[1..], split[1..];
      assert forall i :: 0 <= i < |rest| ==> rest[i] == levels[i + 1] && tail[i] == split[i + 1];
      WalkIsCheapest(rest, tail);
      var size, p := Total(split), levels[0].price;
      var take := MinReal(size, levels[0].qty);
      CostIncrement(rest, p, size - take, size - split[0]);
      NotionalSplit(split[0], take - split[0], p);
      assert split[0] + (take - split[0]) == take;
      assert (size - split[0]) - (size - take) == take - split[0];
      NotionalSplit(0.0, 0.0, p);
      assert Cost(levels, size) == Notional(take, p) + Cost(rest, size - take);
    }
  }

  function Total(split: seq<real>): real {
    if split == [] then 0.0 else split[0] + Total(split[1..])
  }

  function SplitCost(levels: seq<BookLevel>, split: seq<real>): real
    requires |split| == |levels|
  {
    if levels == [] then 0.0
    else Notional(split[0], levels[0].price) + SplitCost(levels[1..], split[1..])
  }

  // ── bids mirror asks: negate every price ──

  function Mirror(levels: seq<BookLevel>): (m: seq<BookLevel>)
    ensures |m| == |levels|
    ensures forall i :: 0 <= i < |m| ==> m[i] == BookLevel(-levels[i].price, levels[i].qty)
  {
    seq(|levels|, i requires 0 <= i < |levels| => BookLevel(-levels[i].price, levels[i].qty))
  }

  lemma {:induction false} MirrorCost(levels: seq<BookLevel>, size: real)
    ensures Cost(Mirror(levels), size) == -Cost(levels, size)
    ensures Depth(Mirror(levels)) == Depth(levels)
  {
    hide Notional;
    if levels != [] {
      assert Mirror(levels)[1..] == Mirror(levels[1..]);
      NotionalNegated(size, levels[0].price);
      NotionalNegated(levels[0].qty, levels[0].price);
      MirrorCost(levels[1..], size - levels[0].qty);
    }
  }

  lemma AverageMonotoneBids(levels: seq<BookLevel>, s: real, t: real)
    requires PositiveQty(levels) && Descending(levels)
    requires 0.0 < s <= t <= Depth(levels)
    ensures Notional(s, Cost(levels, t)) <= Notional(t, Cost(levels, s))
  {
    hide Notional, Cost;
    MirrorCost(levels, s);
    MirrorCost(levels, t);
    AverageMonotone(Mirror(levels), s, t);
    NotionalNegated(t, Cost(levels, s));
    NotionalNegated(s, Cost(levels, t));
  }

  // ── slippage and the book-side size limit ──

  function SlippagePct(vwap: real, best: real): real {
    if best == 0.0 then 0.0 else AbsReal(vwap - best) / best * 100.0
  }

  /** Slippage of paying `notional` for `size` units. */
  function FillSlip(notional: real, size: real, best: real): real {
    SlippagePct(if size != 0.0 then notional / size else 0.0, best)
  }

  /** A book as the venue publishes it: positive, and sorted for its side. */
  ghost predicate SortedSide(levels: seq<BookLevel>) {
    levels != [] && PositiveBook(levels) && (Ascending(levels) || Descending(levels))
  }

  /** Slippage of a fill of `size`, against the top of the book. */
  function BookSlip(levels: seq<BookLevel>, size: real): real
    requires levels != []
  {
    FillSlip(Cost(levels, size), size, levels[0].price)
  }

  /** Multiplying by a positive number keeps the sign. */
  lemma SignKept(d: real, m: real)
    requires m > 0.0
    ensures d > 0.0 <==> d * m > 0.0
    ensures d >= 0.0 <==> d * m >= 0.0
  {
  }

  lemma ZeroProduct(d: real, m: real)
    requires m > 0.0 && d * m == 0.0
    ensures d == 0.0
  {
    SignKept(d, m);
    SignKept(-d, m);
  }

  lemma RatioOrder(a: real, s: real, b: real, t: real)
    requires s > 0.0 && t > 0.0 && Notional(t, a) <= Notional(s, b)
    ensures a / s <= b / t
  {
    var x, y := a / s, b / t;
    assert x * s == a && y * t == b;
    assert (y - x) * (s * t) == (y * t) * s - (x * s) * t;
    SignKept(y - x, s * t);
  }

  lemma AskFloor(levels: seq<BookLevel>, size: real)
    requires PositiveQty(levels) && Ascending(levels) && levels != [] && 0.0 < size <= Depth(levels)
    ensures Cost(levels, size) >= Notional(size, levels[0].price)
  {
    hide Notional;
    CostIncrement(levels, levels[0].price, 0.0, size);
  }

  lemma BidCeiling(levels: seq<BookLevel>, size: real)
    requires PositiveQty(levels) && Descending(levels) && levels != [] && 0.0 < size <= Depth(levels)
    ensures Cost(levels, size) <= Notional(size, levels[0].price)
  {
    hide Notional, Cost;
    MirrorCost(levels, size);
    AskFloor(Mirror(levels), size);
    NotionalNegated(size, levels[0].price);
  }

  lemma DivideBound(p: real, cost: real, size: real)
    requires size > 0.0
    ensures cost >= Notional(size, p) ==> cost / size >= p
    ensures cost <= Notional(size, p) ==> cost / size <= p
  {
    var x := cost / size;
    assert x * size == cost;
    assert (x - p) * size == cost - size * p;
    SignKept(x - p, size);
    SignKept(p - x, size);
  }

  /** Top-of-book price: the fill of any size within the first level, and a bound on all others. */
  lemma FillAgainstBest(levels: seq<BookLevel>, size: real)
    requires SortedSide(levels) && 0.0 < size <= Depth(levels)
    ensures Ascending(levels) ==> Cost(levels, size) / size >= levels[0].price
    ensures Descending(levels) ==> Cost(levels, size) / size <= levels[0].price
    ensures size <= levels[0].qty ==> Cost(levels, size) / size == levels[0].price
  {
    hide Notional;
    if Ascending(levels) {
      AskFloor(levels, size);
    }
    if Descending(levels) {
      BidCeiling(levels, size);
    }
    DivideBound(levels[0].price, Cost(levels, size), size);
  }

  /** A fill of a positive book has a positive price. */
  lemma FillPositive(levels: seq<BookLevel>, size: real)
    requires PositiveBook(levels) && levels != [] && 0.0 < size
    ensures Cost(levels, size) > 0.0 && Cost(levels, size) / size > 0.0
  {
    CostPositive(levels, size);
  }

  lemma {:induction false} CostPositive(levels: seq<BookLevel>, size: real)
    requires PositiveBook(levels)
    ensures Cost(levels, size) >= 0.0
    ensures levels != [] && size > 0.0 ==> Cost(levels, size) > 0.0
  {
    if levels != [] && size > 0.0 {
      assert Notional(MinReal(size, levels[0].qty), levels[0].price) > 0.0;
      CostPositive(levels[1..], size - levels[0].qty);
    }
  }

  /** Taking more of a sorted book never reduces its slippage. */
  lemma SlipMonotone(levels: seq<BookLevel>, s: real, t: real)
    requires SortedSide(levels) && 0.0 < s <= t <= Depth(levels)
    ensures BookSlip(levels, s) <= BookSlip(levels, t)
  {
    hide Notional, Cost;
    FillAgainstBest(levels, s);
    FillAgainstBest(levels, t);
    AverageOrder(levels, s, t);
    FurtherFromBest(levels[0].price, Cost(levels, s) / s, Cost(levels, t) / t);
  }

  /** Average fill prices move away from the top of the book on either side. */
  lemma AverageOrder(levels: seq<BookLevel>, s: real, t: real)
    requires PositiveQty(levels) && 0.0 < s <= t <= Depth(levels)
    ensures Ascending(levels) ==> Cost(levels, s) / s <= Cost(levels, t) / t
    ensures Descending(levels) ==> Cost(levels, s) / s >= Cost(levels, t) / t
  {
    hide Notional, Cost;
    if Ascending(levels) {
      AverageMonotone(levels, s, t);
      RatioOrder(Cost(levels, s), s, Cost(levels, t), t);
    }
    if Descending(levels) {
      AverageMonotoneBids(levels, s, t);
      RatioOrder(Cost(levels, t), t, Cost(levels, s), s);
    }
  }

  lemma FurtherFromBest(best: real, x: real, y: real)
    requires best > 0.0 && (best <= x <= y || y <= x <= best)
    ensures SlippagePct(x, best) <= SlippagePct(y, best)
  {
    RatioOrder(AbsReal(x - best), best, AbsReal(y - best), best);
  }

  /** The 40-step search for the boundary size inside one level. */
  function BookBisect(cumBase: real, cumNotional: real, price: real, best: real, tol: real,
                      lo: real, hi: real, steps: nat): real
    decreases steps
  {
    if steps == 0 then lo
    else
      var mid := (lo + hi) / 2.0;
      if SearchSlip(cumBase, cumNotional, price, best, mid) > tol
      then BookBisect(cumBase, cumNotional, price, best, tol, lo, mid, steps - 1)
      else BookBisect(cumBase, cumNotional, price, best, tol, mid, hi, steps - 1)
  }

  /** Slippage the search computes for a size reaching into the level. */
  function SearchSlip(cumBase: real, cumNotional: real, price: real, best: real, size: real): real {
    FillSlip(cumNotional + Notional(size - cumBase, price), size, best)
  }

  const BOOK_STEPS: nat := 40

  function MaxFillFrom(levels: seq<BookLevel>, i: nat, best: real, tol: real,
                       cumBase: real, cumNotional: real): real
    requires i <= |levels|
    decreases |levels| - i
  {
    if i == |levels| then cumBase
    else
      var trialBase := cumBase + levels[i].qty;
      var trialNotional := cumNotional + Notional(levels[i].qty, levels[i].price);
      if FillSlip(trialNotional, trialBase, best) > tol
      then BookBisect(cumBase, cumNotional, levels[i].price, best, tol, cumBase, trialBase, BOOK_STEPS)
      else MaxFillFrom(levels, i + 1, best, tol, trialBase, trialNotional)
  }

  function MaxFillable(levels: seq<BookLevel>, best: real, tol: real): real {
    if levels == [] || best == 0.0 then 0.0 else MaxFillFrom(levels, 0, best, tol, 0.0, 0.0)
  }

  /** The source's nested loops compute exactly `MaxFillable`. */
  method MaxFillableWithinSlippage(levels: seq<BookLevel>, best: real, tol: real) returns (r: real)
    ensures r == MaxFillable(levels, best, tol)
  {
    hide Notional, SlippagePct;
    if levels == [] || best == 0.0 {
      return 0.0;
    }
    var cumBase, cumNotional := 0.0, 0.0;
    for i := 0 to |levels|
      invariant MaxFillable(levels, best, tol) == MaxFillFrom(levels, i, best, tol, cumBase, cumNotional)
    {
      var trialBase := cumBase + levels[i].qty;
      var trialNotional := cumNotional + Notional(levels[i].qty, levels[i].price);
      var vwap := if trialBase != 0.0 then trialNotional / trialBase else 0.0;
      if SlippagePct(vwap, best) > tol {
        var lo, hi := cumBase, trialBase;
        var price := levels[i].price;
        for step := 0 to BOOK_STEPS
          invariant MaxFillable(levels, best, tol)
            == BookBisect(cumBase, cumNotional, price, best, tol, lo, hi, BOOK_STEPS - step)
        {
          var mid := (lo + hi) / 2.0;
          var add := mid - cumBase;
          var v := if mid != 0.0 then (cumNotional + Notional(add, price)) / mid else 0.0;
          if SlippagePct(v, best) > tol {
            hi := mid;
          } else {
            lo := mid;
          }
        }
        return lo;
      }
      cumBase, cumNotional := trialBase, trialNotional;
    }
    return cumBase;
  }

  function DepthTo(levels: seq<BookLevel>, i: nat): real
    requires i <= |levels|
  {
    if i == 0 then 0.0 else DepthTo(levels, i - 1) + levels[i - 1].qty
  }

  function NotionalTo(levels: seq<BookLevel>, i: nat): real
    requires i <= |levels|
  {
    if i == 0 then 0.0 else NotionalTo(levels, i - 1) + Notional(levels[i - 1].qty, levels[i - 1].price)
  }

  lemma {:induction false} PrefixShift(levels: seq<BookLevel>, i: nat)
    requires 0 < i <= |levels|
    ensures DepthTo(levels, i) == levels[0].qty + DepthTo(levels[1..], i - 1)
    ensures NotionalTo(levels, i) == Notional(levels[0].qty, levels[0].price) + NotionalTo(levels[1..], i - 1)
  {
    hide Notional;
    if i > 1 {
      PrefixShift(levels, i - 1);
    }
  }

  lemma {:induction false} PrefixDepth(levels: seq<BookLevel>, i: nat)
    requires PositiveQty(levels) && i <= |levels|
    ensures 0.0 <= DepthTo(levels, i) <= Depth(levels)
    ensures i > 0 ==> DepthTo(levels, i) > 0.0
    ensures i == |levels| ==> DepthTo(levels, i) == Depth(levels)
  {
    if i > 0 {
      PrefixShift(levels, i);
      PrefixDepth(levels[1..], i - 1);
    } else {
      ShortfallIsMissingDepth(levels, 0.0);
    }
  }

  /** Inside level i the cost is linear: what the search computes is the true cost of the walk. */
  lemma {:induction false} CostInsideLevel(levels: seq<BookLevel>, i: nat, size: real)
    requires PositiveQty(levels) && i < |levels|
    requires 0.0 <= size - DepthTo(levels, i) <= levels[i].qty
    ensures Cost(levels, size) == NotionalTo(levels, i) + Notional(size - DepthTo(levels, i), levels[i].price)
  {
    hide Notional;
    NotionalSplit(0.0, 0.0, levels[i].price);
    if i > 0 {
      PrefixShift(levels, i);
      PrefixDepth(levels[1..], i - 1);
      CostInsideLevel(levels[1..], i - 1, size - levels[0].qty);
    }
  }

  lemma SearchSlipIsBookSlip(levels: seq<BookLevel>, i: nat, size: real)
    requires PositiveQty(levels) && i < |levels|
    requires 0.0 <= size - DepthTo(levels, i) <= levels[i].qty
    ensures SearchSlip(DepthTo(levels, i), NotionalTo(levels, i), levels[i].price, levels[0].price, size)
         == BookSlip(levels, size)
  {
    hide Notional, Cost, FillSlip;
    CostInsideLevel(levels, i, size);
  }

  lemma CostAtBoundary(levels: seq<BookLevel>, i: nat)
    requires PositiveQty(levels) && 0 < i <= |levels|
    ensures Cost(levels, DepthTo(levels, i)) == NotionalTo(levels, i)
  {
    hide Notional, Cost;
    CostInsideLevel(levels, i - 1, DepthTo(levels, i));
  }

  lemma {:induction false} BookBisectBrackets(levels: seq<BookLevel>, i: nat, tol: real, lo: real, hi: real, steps: nat)
    requires SortedSide(levels) && i < |levels|
    requires 0.0 < DepthTo(levels, i) <= lo < hi <= DepthTo(levels, i) + levels[i].qty
    requires BookSlip(levels, lo) <= tol < BookSlip(levels, hi)
    ensures var r := BookBisect(DepthTo(levels, i), NotionalTo(levels, i), levels[i].price,
                                levels[0].price, tol, lo, hi, steps);
      var cell := Halved(hi - lo, steps);
      && lo <= r && r + cell <= hi && cell > 0.0
      && BookSlip(levels, r) <= tol < BookSlip(levels, r + cell)
    decreases steps
  {
    hide BookSlip, SearchSlip;
    if steps > 0 {
      var mid := (lo + hi) / 2.0;
      SearchSlipIsBookSlip(levels, i, mid);
      if BookSlip(levels, mid) > tol {
        assert mid - lo == (hi - lo) / 2.0;
        BookBisectBrackets(levels, i, tol, lo, mid, steps - 1);
      } else {
        assert hi - mid == (hi - lo) / 2.0;
        BookBisectBrackets(levels, i, tol, mid, hi, steps - 1);
      }
    }
  }

  /** r is the size limit found on a sorted book for a tolerance: everything up to r is within
      tolerance, and r is the whole book or misses the boundary by less than one search cell. */
  ghost predicate IsSizeLimit(levels: seq<BookLevel>, tol: real, r: real)
    requires levels != []
  {
    && 0.0 < r <= Depth(levels)
    && (forall s :: 0.0 < s <= r ==> BookSlip(levels, s) <= tol)
    && (r == Depth(levels)
        || exists i :: 0 <= i < |levels| && ExceedsWithinCell(levels, i, tol, r))
  }

  ghost predicate ExceedsWithinCell(levels: seq<BookLevel>, i: int, tol: real, r: real)
    requires 0 <= i < |levels|
  {
    var cell := Halved(levels[i].qty, BOOK_STEPS);
    && cell > 0.0
    && DepthTo(levels, i) <= r
    && r + cell <= DepthTo(levels, i + 1)
    && BookSlip(levels, r + cell) > tol
  }

  lemma {:induction false} MaxFillFromIsLimit(levels: seq<BookLevel>, i: nat, tol: real)
    requires SortedSide(levels) && i <= |levels| && tol >= 0.0
    requires i > 0 ==> DepthTo(levels, i) > 0.0 && BookSlip(levels, DepthTo(levels, i)) <= tol
    ensures IsSizeLimit(levels, tol,
              MaxFillFrom(levels, i, levels[0].price, tol, DepthTo(levels, i), NotionalTo(levels, i)))
    decreases |levels| - i
  {
    hide Notional, Cost, FillSlip;
    var best := levels[0].price;
    var r := MaxFillFrom(levels, i, best, tol, DepthTo(levels, i), NotionalTo(levels, i));
    PrefixDepth(levels, i);
    if i == |levels| {
      LimitFromTop(levels, tol, r);
    } else {
      PrefixDepth(levels, i + 1);
      var trial := DepthTo(levels, i + 1);
      CostAtBoundary(levels, i + 1);
      if BookSlip(levels, trial) > tol {
        if i == 0 {
          FirstLevelSlip(levels);
          assert false;
        }
        BookBisectBrackets(levels, i, tol, DepthTo(levels, i), trial, BOOK_STEPS);
        assert trial - DepthTo(levels, i) == levels[i].qty;
        assert ExceedsWithinCell(levels, i, tol, r);
        LimitFromTop(levels, tol, r);
      } else {
        MaxFillFromIsLimit(levels, i + 1, tol);
      }
    }
  }

  lemma FirstLevelSlip(levels: seq<BookLevel>)
    requires SortedSide(levels)
    ensures BookSlip(levels, DepthTo(levels, 1)) == 0.0
  {
    hide Notional, Cost;
    assert DepthTo(levels, 1) == levels[0].qty;
    PrefixDepth(levels, 1);
    FillAgainstBest(levels, levels[0].qty);
  }

  lemma LimitFromTop(levels: seq<BookLevel>, tol: real, r: real)
    requires SortedSide(levels) && 0.0 < r <= Depth(levels) && BookSlip(levels, r) <= tol
    ensures forall s :: 0.0 < s <= r ==> BookSlip(levels, s) <= tol
  {
    hide BookSlip;
    forall s | 0.0 < s <= r ensures BookSlip(levels, s) <= tol {
      SlipMonotone(levels, s, r);
    }
  }

  /** The size limit the scanner uses on an order book really is the boundary of the tolerance. */
  lemma BookLimitIsExact(levels: seq<BookLevel>, tol: real)
    requires SortedSide(levels) && tol >= 0.0
    ensures IsSizeLimit(levels, tol, MaxFillable(levels, levels[0].price, tol))
  {
    MaxFillFromIsLimit(levels, 0, tol);
  }

  // ── the constant-product pool ──

  /** Where the source's division is defined; it raises elsewhere. Any fee below one qualifies. */
  predicate SwapDefined(reserveIn: real, amountIn: real, fee: real) {
    reserveIn + amountIn * (1.0 - fee) != 0.0
  }

  function AmmOutput(reserveIn: real, reserveOut: real, amountIn: real, fee: real): real
    requires reserveIn > 0.0 && reserveOut > 0.0 && amountIn > 0.0 ==> SwapDefined(reserveIn, amountIn, fee)
  {
    if reserveIn <= 0.0 || reserveOut <= 0.0 || amountIn <= 0.0 then 0.0
    else
      var k := reserveIn * reserveOut;
      reserveOut - k / (reserveIn + amountIn * (1.0 - fee))
  }

  function AmmEffectivePrice(reserveIn: real, reserveOut: real, amountIn: real, fee: real): Option<real>
    requires reserveIn > 0.0 && reserveOut > 0.0 && amountIn > 0.0 ==> SwapDefined(reserveIn, amountIn, fee)
  {
    var out := AmmOutput(reserveIn, reserveOut, amountIn, fee);
    if out <= 0.0 then None else Some(amountIn / out)
  }

  /** The pool invariant, and what it buys: the fee-reduced input and the output keep the product of
      the reserves, the pool is never drained, and the output is the closed form x(1-f)y/(r+x(1-f)). */
  lemma SwapKeepsProduct(reserveIn: real, reserveOut: real, amountIn: real, fee: real)
    requires reserveIn > 0.0 && reserveOut > 0.0 && amountIn > 0.0 && fee < 1.0
    ensures SwapDefined(reserveIn, amountIn, fee)
    ensures var out := AmmOutput(reserveIn, reserveOut, amountIn, fee);
      && 0.0 < out < reserveOut
      && (reserveIn + amountIn * (1.0 - fee)) * (reserveOut - out) == reserveIn * reserveOut
      && out * (reserveIn + amountIn * (1.0 - fee)) == amountIn * (1.0 - fee) * reserveOut
  {
    var net := amountIn * (1.0 - fee);
    assert net > 0.0;
    var newIn := reserveIn + net;
    var newOut := reserveIn * reserveOut / newIn;
    assert newOut * newIn == reserveIn * reserveOut;
    assert reserveIn * reserveOut > 0.0;
    assert newOut > 0.0;
    var out := reserveOut - newOut;
    assert out * newIn == net * reserveOut;
    assert net * reserveOut > 0.0;
    assert out > 0.0;
  }

  /** Price of an infinitesimal swap: the curve's spot marked up by the fee. */
  function ZeroSizePrice(reserveIn: real, reserveOut: real, fee: real): real
    requires reserveOut != 0.0 && fee != 1.0
  {
    (reserveIn / reserveOut) / (1.0 - fee)
  }

  /** Price impact is exactly linear in the input. */
  lemma ImpactIsLinear(reserveIn: real, reserveOut: real, amountIn: real, fee: real)
    requires reserveIn > 0.0 && reserveOut > 0.0 && amountIn > 0.0 && fee < 1.0
    ensures SwapDefined(reserveIn, amountIn, fee)
    ensures var eff := AmmEffectivePrice(reserveIn, reserveOut, amountIn, fee);
      && eff.Some?
      && eff.value == (reserveIn + amountIn * (1.0 - fee)) / (reserveOut * (1.0 - fee))
      && eff.value >= ZeroSizePrice(reserveIn, reserveOut, fee) > 0.0
      && SlippagePct(eff.value, ZeroSizePrice(reserveIn, reserveOut, fee))
         == amountIn * (1.0 - fee) / reserveIn * 100.0
  {
    SwapKeepsProduct(reserveIn, reserveOut, amountIn, fee);
    var g := 1.0 - fee;
    var out := AmmOutput(reserveIn, reserveOut, amountIn, fee);
    var total := reserveIn + amountIn * g;
    var eff := amountIn / out;
    CrossDivide(amountIn, out, total, reserveOut * g);
    var zero := ZeroSizePrice(reserveIn, reserveOut, fee);
    NestedDivide(reserveIn, reserveOut, g);
    assert zero == reserveIn / (reserveOut * g);
    LinearExcess(reserveIn, amountIn * g, reserveOut * g);
  }

  lemma CrossDivide(a: real, b: real, c: real, d: real)
    requires b > 0.0 && d > 0.0 && a * d == c * b
    ensures a / b == c / d
  {
    RatioOrder(a, b, c, d);
    RatioOrder(c, d, a, b);
  }

  lemma NestedDivide(a: real, b: real, g: real)
    requires b > 0.0 && g > 0.0
    ensures b * g > 0.0 && (a / b) / g == a / (b * g)
  {
    var x := (a / b) / g;
    assert x * g == a / b;
    assert (x * g) * b == a;
    assert x * (b * g) == a;
  }

  lemma LinearExcess(r: real, n: real, d: real)
    requires r > 0.0 && n >= 0.0 && d > 0.0
    ensures (r + n) / d >= r / d > 0.0
    ensures SlippagePct((r + n) / d, r / d) == n / r * 100.0
  {
    var x, y := (r + n) / d, r / d;
    assert x * d == r + n && y * d == r;
    assert x - y == n / d;
    CrossDivide(n / d, y, n, r);
  }

  function AmmBisect(reserveIn: real, reserveOut: real, fee: real, tol: real, lo: real, hi: real, steps: nat): real
    requires reserveIn > 0.0 && reserveOut > 0.0 && fee < 1.0 && 0.0 <= lo && 0.0 < hi
    decreases steps
  {
    if steps == 0 then lo
    else
      var mid := (lo + hi) / 2.0;
      SwapKeepsProduct(reserveIn, reserveOut, mid, fee);
      var eff := AmmEffectivePrice(reserveIn, reserveOut, mid, fee);
      if eff.None? || SlippagePct(eff.value, ZeroSizePrice(reserveIn, reserveOut, fee)) > tol
      then AmmBisect(reserveIn, reserveOut, fee, tol, lo, mid, steps - 1)
      else AmmBisect(reserveIn, reserveOut, fee, tol, mid, hi, steps - 1)
  }

  const AMM_STEPS: nat := 60

  function AmmMaxSize(reserveIn: real, reserveOut: real, fee: real, tol: real): real {
    if reserveIn <= 0.0 || reserveOut <= 0.0 || fee >= 1.0 then 0.0
    else AmmBisect(reserveIn, reserveOut, fee, tol, 0.0, reserveIn, AMM_STEPS)
  }

  /** The source's 60-step loop computes exactly `AmmMaxSize`. */
  method AmmMaxSizeWithinSlippage(reserveIn: real, reserveOut: real, fee: real, tol: real) returns (r: real)
    ensures r == AmmMaxSize(reserveIn, reserveOut, fee, tol)
  {
    if reserveIn <= 0.0 || reserveOut <= 0.0 || fee >= 1.0 {
      return 0.0;
    }
    var zero := ZeroSizePrice(reserveIn, reserveOut, fee);
    var lo, hi := 0.0, reserveIn;
    for step := 0 to AMM_STEPS
      invariant 0.0 <= lo && 0.0 < hi
      invariant AmmMaxSize(reserveIn, reserveOut, fee, tol)
        == AmmBisect(reserveIn, reserveOut, fee, tol, lo, hi, AMM_STEPS - step)
    {
      var mid := (lo + hi) / 2.0;
      SwapKeepsProduct(reserveIn, reserveOut, mid, fee);
      var eff := AmmEffectivePrice(reserveIn, reserveOut, mid, fee);
      if eff.None? {
        hi := mid;
        continue;
      }
      if SlippagePct(eff.value, zero) > tol {
        hi := mid;
      } else {
        lo := mid;
      }
    }
    return lo;
  }

  /** Largest input within tolerance, in closed form. */
  function ImpactBudget(reserveIn: real, fee: real, tol: real): real
    requires fee < 1.0
  {
    MaxReal(0.0, MinReal(reserveIn, reserveIn * tol / (100.0 * (1.0 - fee))))
  }

  lemma {:induction false} AmmBisectBrackets(reserveIn: real, reserveOut: real, fee: real, tol: real,
                                             lo: real, hi: real, steps: nat)
    requires reserveIn > 0.0 && reserveOut > 0.0 && fee < 1.0
    requires 0.0 <= lo < hi <= reserveIn
    requires lo <= ImpactBudget(reserveIn, fee, tol) <= hi
    ensures var r := AmmBisect(reserveIn, reserveOut, fee, tol, lo, hi, steps);
      lo <= r <= ImpactBudget(reserveIn, fee, tol) <= r + Halved(hi - lo, steps)
    decreases steps
  {
    if steps > 0 {
      var mid := (lo + hi) / 2.0;
      OverBudgetIff(reserveIn, reserveOut, mid, fee, tol);
      if mid > ImpactBudget(reserveIn, fee, tol) {
        assert mid - lo == (hi - lo) / 2.0;
        AmmBisectBrackets(reserveIn, reserveOut, fee, tol, lo, mid, steps - 1);
      } else {
        assert hi - mid == (hi - lo) / 2.0;
        AmmBisectBrackets(reserveIn, reserveOut, fee, tol, mid, hi, steps - 1);
      }
    }
  }

  /** A swap of at most the reserve exceeds the tolerance exactly when it exceeds the budget. */
  lemma OverBudgetIff(reserveIn: real, reserveOut: real, amountIn: real, fee: real, tol: real)
    requires reserveIn > 0.0 && reserveOut > 0.0 && fee < 1.0 && 0.0 < amountIn <= reserveIn
    ensures SwapDefined(reserveIn, amountIn, fee)
    ensures var eff := AmmEffectivePrice(reserveIn, reserveOut, amountIn, fee);
      && eff.Some?
      && (SlippagePct(eff.value, ZeroSizePrice(reserveIn, reserveOut, fee)) > tol
          <==> amountIn > ImpactBudget(reserveIn, fee, tol))
  {
    ImpactIsLinear(reserveIn, reserveOut, amountIn, fee);
    WithinBudget(reserveIn, amountIn, 1.0 - fee, tol);
  }

  lemma WithinBudget(r: real, x: real, g: real, tol: real)
    requires r > 0.0 && g > 0.0
    ensures x * g / r * 100.0 > tol <==> x > r * tol / (100.0 * g)
  {
    var u, h := x * g / r * 100.0, 100.0 * g;
    var w := r * tol / h;
    var v := x * g / r;
    assert v * r == x * g;
    assert u * r == x * h by {
      assert u * r == (v * r) * 100.0;
    }
    assert w * h == r * tol;
    CompareScaled(u, tol, r, x, w, h);
  }

  lemma CompareScaled(u: real, tol: real, r: real, x: real, w: real, h: real)
    requires r > 0.0 && h > 0.0 && u * r == x * h && w * h == r * tol
    ensures u > tol <==> x > w
  {
    assert (u - tol) * r == (x - w) * h;
    SignKept(u - tol, r);
    SignKept(x - w, h);
  }

  /** The pool's size limit refines its closed form, to within one of 2^60 parts of the reserve. */
  lemma PoolLimitIsExact(reserveIn: real, reserveOut: real, fee: real, tol: real)
    requires reserveIn > 0.0 && reserveOut > 0.0 && fee < 1.0
    ensures var r := AmmMaxSize(reserveIn, reserveOut, fee, tol);
      0.0 <= r <= ImpactBudget(reserveIn, fee, tol) <= r + Halved(reserveIn, AMM_STEPS)
    ensures Halved(reserveIn, AMM_STEPS) * Pow2(AMM_STEPS) == reserveIn
  {
    HalvedIsDivision(reserveIn, AMM_STEPS);
    AmmBisectBrackets(reserveIn, reserveOut, fee, tol, 0.0, reserveIn, AMM_STEPS);
  }
}
