/** The coalescing, weighted-fair queue feeding the signal generator (src/scanner/priority/scheduler.py). */
module EventQueue {
  import opened Prelude
  import opened Market

  datatype Tier = T1 | T2 | T3

  datatype Item = Item(base: string, quote: string, venue: string) {
    function Key(): Pair {
      Pair(base, quote)
    }
  }

  /** Every fourth get starts at tier 2 instead of tier 1. */
  function OrderAt(starts: nat): seq<Tier> {
    if starts % 4 != 0 then [T1, T2, T3] else [T2, T3, T1]
  }

  /** The queue as a value. `event` is the flag a waiting consumer sleeps on. */
  datatype Queue = Queue(q1: seq<Item>, q2: seq<Item>, q3: seq<Item>, pending: set<Pair>,
                         starts: nat, enqueued: nat, dequeued: nat, event: bool)
  {
    function Of(t: Tier): seq<Item> {
      match t case T1 => q1 case T2 => q2 case T3 => q3
    }

    function With(t: Tier, items: seq<Item>): (q: Queue)
      ensures q.Of(t) == items && forall u :: u != t ==> q.Of(u) == Of(u)
    {
      match t
      case T1 => this.(q1 := items)
      case T2 => this.(q2 := items)
      case T3 => this.(q3 := items)
    }

    function Size(): nat {
      |q1| + |q2| + |q3|
    }

    function Put(t: Tier, item: Item): Queue {
      if item.Key() in pending then this
      else With(t, Of(t) + [item]).(pending := pending + {item.Key()}, enqueued := enqueued + 1, event := true)
    }

    /** Tier the next get serves, if anything is queued. */
    function NextTier(): Option<Tier> {
      var order := OrderAt(starts);
      if Of(order[0]) != [] then Some(order[0])
      else if Of(order[1]) != [] then Some(order[1])
      else if Of(order[2]) != [] then Some(order[2])
      else None
    }

    /** The head of a tier leaves the queue, and its key may be queued again. */
    function Serve(t: Tier): Queue
      requires Of(t) != []
    {
      With(t, Of(t)[1..]).(pending := pending - {Of(t)[0].Key()}, dequeued := dequeued + 1)
    }

    /** One pass of get: the item served, or None when the consumer goes to sleep. */
    function Get(): (Queue, Option<Item>) {
      var t := NextTier();
      var turned := this.(starts := starts + 1);
      if t.None? then (turned.(event := false), None)
      else (turned.Serve(t.value), Some(Of(t.value)[0]))
    }

    /** Pending keys are exactly the queued keys, each queued once; the counters balance; and a
        consumer asleep on a cleared event has nothing to serve. */
    ghost predicate Valid() {
      && Keys(q1) + Keys(q2) + Keys(q3) == multiset(pending)
      && enqueued == dequeued + Size()
      && (!event ==> Size() == 0)
    }
  }

  ghost function Keys(items: seq<Item>): multiset<Pair> {
    if items == [] then multiset{} else multiset{items[0].Key()} + Keys(items[1..])
  }

  lemma {:induction false} KeysAppend(items: seq<Item>, item: Item)
    ensures Keys(items + [item]) == Keys(items) + multiset{item.Key()}
  {
    if items != [] {
      assert (items + [item])[1..] == items[1..] + [item];
      KeysAppend(items[1..], item);
    } else {
      assert (items + [item])[1..] == [];
    }
  }

  lemma AddToSet(keys: set<Pair>, key: Pair)
    requires key !in keys
    ensures multiset(keys + {key}) == multiset(keys) + multiset{key}
  {
  }

  lemma RemoveFromSet(keys: set<Pair>, key: Pair, rest: multiset<Pair>)
    requires multiset(keys) == multiset{key} + rest
    ensures multiset(keys - {key}) == rest
  {
    assert key in multiset(keys);
    assert multiset(keys - {key}) == multiset(keys) - multiset{key};
  }

  lemma PutKeepsValid(q: Queue, t: Tier, item: Item)
    requires q.Valid()
    ensures q.Put(t, item).Valid()
  {
    hide Keys;
    if item.Key() !in q.pending {
      KeysAppend(q.Of(t), item);
      AddToSet(q.pending, item.Key());
    }
  }

  lemma GetKeepsValid(q: Queue)
    requires q.Valid()
    ensures q.Get().0.Valid()
    ensures q.Get().1.None? <==> q.Size() == 0
  {
    if q.NextTier().Some? {
      var t := q.NextTier().value;
      var items := q.Of(t);
      assert Keys(items) == multiset{items[0].Key()} + Keys(items[1..]);
      ServeKeepsValid(q, t);
    }
  }

  lemma ServeKeepsValid(q: Queue, t: Tier)
    requires q.Valid() && q.NextTier() == Some(t)
    requires Keys(q.Of(t)) == multiset{q.Of(t)[0].Key()} + Keys(q.Of(t)[1..])
    ensures q.Get().0.Valid()
  {
    hide Keys;
    var key := q.Of(t)[0].Key();
    var after := q.Get().0;
    var rest := Keys(after.q1) + Keys(after.q2) + Keys(after.q3);
    assert multiset(q.pending) == multiset{key} + rest;
    RemoveFromSet(q.pending, key, rest);
  }

  lemma {:induction false} KeysCount(items: seq<Item>)
    ensures |Keys(items)| == |items|
  {
    if items != [] {
      KeysCount(items[1..]);
    }
  }

  /** The number of keys pending is the number of items queued, and is what the counters say. */
  lemma PendingCount(q: Queue)
    requires q.Valid()
    ensures |q.pending| == q.Size() == q.enqueued - q.dequeued
  {
    KeysCount(q.q1);
    KeysCount(q.q2);
    KeysCount(q.q3);
    assert |multiset(q.pending)| == |q.pending|;
  }

  // ── runs ──

  datatype Op = PutOp(tier: Tier, item: Item) | GetOp

  function Step(q: Queue, op: Op): Queue {
    match op
    case PutOp(t, item) => q.Put(t, item)
    case GetOp => q.Get().0
  }

  function Run(q: Queue, ops: seq<Op>): Queue
    decreases |ops|
  {
    if ops == [] then q else Run(Step(q, ops[0]), ops[1..])
  }

  function Gets(ops: seq<Op>): nat
    decreases |ops|
  {
    if ops == [] then 0 else (if ops[0].GetOp? then 1 else 0) + Gets(ops[1..])
  }

  /** Some get of the run returns this item. */
  predicate Served(q: Queue, ops: seq<Op>, item: Item)
    decreases |ops|
  {
    ops != [] && ((ops[0].GetOp? && q.Get().1 == Some(item)) || Served(Step(q, ops[0]), ops[1..], item))
  }

  /** How many gets of the run were spent on tier 2. */
  function Tier2Gets(q: Queue, ops: seq<Op>): nat
    decreases |ops|
  {
    if ops == [] then 0
    else (if ops[0].GetOp? && q.NextTier() == Some(T2) then 1 else 0) + Tier2Gets(Step(q, ops[0]), ops[1..])
  }

  lemma {:induction false} RunKeepsValid(q: Queue, ops: seq<Op>)
    requires q.Valid()
    ensures Run(q, ops).Valid()
    decreases |ops|
  {
    if ops != [] {
      match ops[0] {
        case PutOp(t, item) => PutKeepsValid(q, t, item);
        case GetOp => GetKeepsValid(q);
      }
      RunKeepsValid(Step(q, ops[0]), ops[1..]);
    }
  }

  /** Gets up to and including the next one that starts at tier 2. */
  function UntilTier2Turn(starts: nat): (n: nat)
    ensures 1 <= n <= 4
  {
    if starts % 4 == 0 then 1 else 5 - starts % 4
  }

  lemma {:induction false} Tier2Deadline(q: Queue, ops: seq<Op>, k: nat)
    requires k < |q.q2| && Gets(ops) >= 4 * k + UntilTier2Turn(q.starts)
    ensures Served(q, ops, q.q2[k])
    decreases |ops|
  {
    var next := Step(q, ops[0]);
    if ops[0].PutOp? {
      assert next.q2[k] == q.q2[k];
      Tier2Deadline(next, ops[1..], k);
    } else if q.NextTier() == Some(T2) {
      if k > 0 {
        assert next.q2[k - 1] == q.q2[k];
        Tier2Deadline(next, ops[1..], k - 1);
      }
    } else {
      Tier2Deadline(next, ops[1..], k);
    }
  }

  /** A tier-2 item at position k is served within 4(k+1) gets, whatever is put meanwhile. */
  lemma Tier2IsServed(q: Queue, ops: seq<Op>, k: nat)
    requires k < |q.q2| && Gets(ops) >= 4 * (k + 1)
    ensures Served(q, ops, q.q2[k])
  {
    Tier2Deadline(q, ops, k);
  }

  lemma {:induction false} Tier1Deadline(q: Queue, ops: seq<Op>, k: nat)
    requires k < |q.q1| && Gets(ops) >= 2 * k + (if q.starts % 4 == 0 then 2 else 1)
    ensures Served(q, ops, q.q1[k])
    decreases |ops|
  {
    var next := Step(q, ops[0]);
    if ops[0].PutOp? {
      assert next.q1[k] == q.q1[k];
      Tier1Deadline(next, ops[1..], k);
    } else if q.NextTier() == Some(T1) {
      if k > 0 {
        assert next.q1[k - 1] == q.q1[k];
        Tier1Deadline(next, ops[1..], k - 1);
      }
    } else {
      Tier1Deadline(next, ops[1..], k);
    }
  }

  /** A tier-1 item at position k is served within 2(k+1) gets: no two gets in a row pass tier 1 over. */
  lemma Tier1IsServed(q: Queue, ops: seq<Op>, k: nat)
    requires k < |q.q1| && Gets(ops) >= 2 * (k + 1)
    ensures Served(q, ops, q.q1[k])
  {
    Tier1Deadline(q, ops, k);
  }

  /** One get while tier 3 waits serves its head, spends itself on tier 2, or comes nearer to
      tier 2's turn. */
  lemma GetWhileTier3Waits(q: Queue)
    requires q.q3 != []
    ensures q.NextTier() == Some(T3) ==> q.Get().0.q3 == q.q3[1..] && q.Get().1 == Some(q.q3[0])
    ensures q.NextTier() == Some(T1) || q.NextTier() == Some(T2) || q.NextTier() == Some(T3)
    ensures q.NextTier() != Some(T3) ==> q.Get().0.q3 == q.q3
    ensures 1 <= UntilTier2Turn(q.starts) && UntilTier2Turn(q.Get().0.starts) <= 4
    ensures q.NextTier() == Some(T1) ==> UntilTier2Turn(q.starts) == UntilTier2Turn(q.Get().0.starts) + 1
  {
    var turn := q.starts % 4;
    assert (q.starts + 1) % 4 == if turn == 3 then 0 else turn + 1;
  }

  lemma {:induction false} Tier3Deadline(q: Queue, ops: seq<Op>, k: nat)
    requires k < |q.q3| && Gets(ops) >= 4 * (k + Tier2Gets(q, ops)) + UntilTier2Turn(q.starts)
    ensures Served(q, ops, q.q3[k])
    decreases |ops|
  {
    hide Queue.Get, Queue.Put, Queue.NextTier, UntilTier2Turn;
    var next := Step(q, ops[0]);
    if ops[0].PutOp? {
      PutKeepsTier3(q, ops[0].tier, ops[0].item);
      Tier3Deadline(next, ops[1..], k);
    } else {
      GetWhileTier3Waits(q);
      if q.NextTier() == Some(T3) {
        if k > 0 {
          assert next.q3[k - 1] == q.q3[k];
          Tier3Deadline(next, ops[1..], k - 1);
        }
      } else if q.NextTier() == Some(T2) {
        assert Tier2Gets(q, ops) == 1 + Tier2Gets(next, ops[1..]);
        Tier3Deadline(next, ops[1..], k);
      } else {
        assert Tier2Gets(q, ops) == Tier2Gets(next, ops[1..]);
        Tier3Deadline(next, ops[1..], k);
      }
    }
  }

  lemma PutKeepsTier3(q: Queue, t: Tier, item: Item)
    ensures q.q3 <= q.Put(t, item).q3 && q.Put(t, item).starts == q.starts
  {
  }

  /** A tier-3 item at position k is served within 4(k+1+d) gets, d of them spent on tier 2. */
  lemma Tier3IsServed(q: Queue, ops: seq<Op>, k: nat)
    requires k < |q.q3| && Gets(ops) >= 4 * (k + 1 + Tier2Gets(q, ops))
    ensures Served(q, ops, q.q3[k])
  {
    Tier3Deadline(q, ops, k);
  }

  /** A new item joins the end of its own tier, and so is served within that tier's bound for the items before it;
      one whose key is queued already changes nothing. */
  lemma PutIsServed(q: Queue, t: Tier, item: Item, ops: seq<Op>)
    requires q.Valid()
    requires var put := q.Put(t, item);
      Gets(ops) >= match t
                   case T1 => 2 * (|q.q1| + 1)
                   case T2 => 4 * (|q.q2| + 1)
                   case T3 => 4 * (|q.q3| + 1 + Tier2Gets(put, ops))
    ensures item.Key() !in q.pending ==> Served(q.Put(t, item), ops, item)
    ensures item.Key() in q.pending ==> q.Put(t, item) == q && item.Key() in Keys(q.q1) + Keys(q.q2) + Keys(q.q3)
  {
    hide Served, Tier2Gets, Keys;
    var put := q.Put(t, item);
    if item.Key() !in q.pending {
      match t {
        case T1 => assert put.q1[|q.q1|] == item; Tier1IsServed(put, ops, |q.q1|);
        case T2 => assert put.q2[|q.q2|] == item; Tier2IsServed(put, ops, |q.q2|);
        case T3 => assert put.q3[|q.q3|] == item; Tier3IsServed(put, ops, |q.q3|);
      }
    } else {
      assert item.Key() in multiset(q.pending);
    }
  }

  /** What a get returns is the head of a tier, the first of tier 1 unless it is empty or this get starts at tier 2. */
  lemma GetServesHead(q: Queue)
    ensures q.Get().1.Some? ==> exists t: Tier :: q.Of(t) != [] && q.Get().1.value == q.Of(t)[0]
    ensures q.q1 != [] && q.starts % 4 != 0 ==> q.Get().1 == Some(q.q1[0])
    ensures q.q2 != [] && q.starts % 4 == 0 ==> q.Get().1 == Some(q.q2[0])
    ensures q.Get().0.starts == q.starts + 1
    ensures q.Get().1.None? ==> !q.Get().0.event && q.Size() == 0
    ensures q.Get().1.Some? ==> q.Get().0.event == q.event
    ensures forall t: Tier, item: Item :: item.Key() !in q.pending ==> q.Put(t, item).event
  {
  }

  function BusyTier2(busy: Item, n: nat): seq<Op> {
    if n == 0 then [] else [PutOp(T2, busy), GetOp] + BusyTier2(busy, n - 1)
  }

  /** A tier-2 item put while only tier 3 waits is served by the next get, leaving tier 3 as it was. */
  lemma BusyRoundTrip(q: Queue, busy: Item, waiting: Item)
    requires q.q1 == [] && q.q2 == [] && q.q3 == [waiting] && busy.Key() !in q.pending
    ensures var put := Step(q, PutOp(T2, busy));
      var next := Step(put, GetOp);
      && put.Get().1 == Some(busy)
      && next.q1 == [] && next.q2 == [] && next.q3 == [waiting] && next.pending == q.pending
  {
    var put := Step(q, PutOp(T2, busy));
    assert put.q1 == [] && put.q2 == [busy] && put.q3 == [waiting];
    assert put.NextTier() == Some(T2);
  }

  /** Tier 3 has no deadline of its own: however many gets happen, a busy tier 2 can take them all. */
  lemma {:induction false} Tier3CanStarve(q: Queue, busy: Item, waiting: Item, n: nat)
    requires q.q1 == [] && q.q2 == [] && q.q3 == [waiting]
    requires busy.Key() !in q.pending && busy != waiting
    ensures Gets(BusyTier2(busy, n)) == n
    ensures !Served(q, BusyTier2(busy, n), waiting)
    decreases n
  {
    if n > 0 {
      hide Step, Queue.Get;
      var ops := BusyTier2(busy, n);
      var put := Step(q, PutOp(T2, busy));
      var next := Step(put, GetOp);
      BusyRoundTrip(q, busy, waiting);
      assert ops[0] == PutOp(T2, busy) && ops[1..] == [GetOp] + BusyTier2(busy, n - 1);
      assert ops[1..][0] == GetOp && ops[1..][1..] == BusyTier2(busy, n - 1);
      Tier3CanStarve(next, busy, waiting, n - 1);
      assert Gets(ops[1..]) == n;
      assert !Served(put, ops[1..], waiting);
    }
  }

  // ── the queue object ──

  class PriorityEventQueue {
    var q1: seq<Item>
    var q2: seq<Item>
    var q3: seq<Item>
    var pending: set<Pair>
    var starts: nat
    var enqueuedTotal: nat
    var dequeuedTotal: nat
    var event: bool

    ghost function View(): Queue
      reads this
    {
      Queue(q1, q2, q3, pending, starts, enqueuedTotal, dequeuedTotal, event)
    }

    constructor ()
      ensures View() == Queue([], [], [], {}, 0, 0, 0, false)
      ensures View().Valid()
    {
      q1, q2, q3, pending := [], [], [], {};
      starts, enqueuedTotal, dequeuedTotal, event := 0, 0, 0, false;
    }

    function Of(t: Tier): seq<Item>
      reads this
    {
      match t case T1 => q1 case T2 => q2 case T3 => q3
    }

    method Put(t: Tier, item: Item)
      requires View().Valid()
      modifies this
      ensures View() == old(View()).Put(t, item)
      ensures View().Valid()
    {
      PutKeepsValid(View(), t, item);
      if item.Key() in pending {
        return;
      }
      pending := pending + {item.Key()};
      enqueuedTotal := enqueuedTotal + 1;
      match t {
        case T1 => q1 := q1 + [item];
        case T2 => q2 := q2 + [item];
        case T3 => q3 := q3 + [item];
      }
      event := true;
    }

    method Serve(t: Tier) returns (item: Item)
      requires Of(t) != []
      modifies `q1, `q2, `q3, `pending, `dequeuedTotal
      ensures item == old(Of(t)[0])
      ensures View() == old(View()).Serve(t)
    {
      item := Of(t)[0];
      match t {
        case T1 => q1 := q1[1..];
        case T2 => q2 := q2[1..];
        case T3 => q3 := q3[1..];
      }
      pending := pending - {item.Key()};
      dequeuedTotal := dequeuedTotal + 1;
    }

    /** The first tier of this get's order that has something queued. */
    method FindTier() returns (t: Option<Tier>)
      ensures t == View().NextTier()
      ensures t.Some? ==> Of(t.value) != []
    {
      var order := OrderAt(starts);
      for i := 0 to 3
        invariant forall j :: 0 <= j < i ==> Of(order[j]) == []
      {
        if Of(order[i]) != [] {
          return Some(order[i]);
        }
      }
      return None;
    }

    /** One pass of the source's get loop; None is where it clears the event and waits. */
    method TryGet() returns (r: Option<Item>)
      requires View().Valid()
      modifies this
      ensures (View(), r) == old(View()).Get()
      ensures View().Valid()
      ensures r.None? <==> old(View()).Size() == 0
    {
      hide Queue.Valid, Queue.Size, Queue.NextTier, OrderAt;
      GetKeepsValid(View());
      var t := FindTier();
      starts := starts + 1;
      if t.None? {
        event := false;
        r := None;
      } else {
        var item := Serve(t.value);
        r := Some(item);
      }
    }
  }
}
