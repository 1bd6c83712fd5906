/** The event-driven path as a whole (src/scanner/engine.py:222-304): writes accumulate groups per
    symbol, a coalescing queue orders symbols, one worker dequeues a symbol, drains its groups and runs
    the detectors they trigger. Cache writes may happen between a dequeue and its drain. */
module IncrementalDetection {
  import opened Prelude
  import opened Market
  import opened Config
  import opened Signals
  import opened MarketCache
  import opened Detection
  import opened EventRouting
  import opened EventQueue

  /** `last` remembers each detector's latest output per symbol; nothing recorded reads as no candidates. */
  datatype Engine = Engine(
    market: Snapshot,
    queue: Queue,
    groups: map<Pair, set<Group>>,
    inFlight: Option<Pair>,
    last: map<(Pair, ArbType), seq<Candidate>>)
  {
    function Owed(symbol: Pair): set<Group> {
      if symbol in groups then groups[symbol] else {}
    }

    function Last(symbol: Pair, kind: ArbType): seq<Candidate> {
      if (symbol, kind) in last then last[(symbol, kind)] else []
    }
  }

  const NO_MARKET := Snapshot(EMPTY, [])

  const START := Engine(NO_MARKET, Queue([], [], [], {}, 0, 0, 0, false), map[], None, map[])

  function Accumulated(groups: map<Pair, set<Group>>, symbol: Pair, g: Group): map<Pair, set<Group>> {
    if symbol in groups then groups[symbol := groups[symbol] + {g}] else groups[symbol := {g}]
  }

  /** The groups a pass over the symbol runs with: those accumulated, or all when there are none. */
  function PassGroups(groups: map<Pair, set<Group>>, symbol: Pair): set<Group> {
    if symbol in groups then groups[symbol] else ALL_GROUPS
  }

  function WriteVenue(w: Write): string {
    if w.FundingWrite? then w.rate.venue else w.key.0
  }

  /** Outputs after a pass over the symbol ran the detectors the groups trigger. */
  function Rerun(ctx: Context, m: Snapshot, symbol: Pair, gs: set<Group>, last: map<(Pair, ArbType), seq<Candidate>>)
    : map<(Pair, ArbType), seq<Candidate>>
  {
    last + map kind | kind in {CEX_CEX, CEX_DEX, DEX_DEX, CROSS_CHAIN, FUNDING} && Triggers(kind) * gs != {}
             :: (symbol, kind) := Detect(kind, ctx, m, symbol)
  }

  datatype Action = DoWrite(w: Write, tier: Tier) | Dequeue | Drain

  function Step(cacheCfg: CacheConfig, ctx: Context, e: Engine, a: Action): Engine {
    match a
    case DoWrite(w, tier) =>
      var after := e.(market := Apply(cacheCfg, e.market, w));
      if !Emits(cacheCfg, e.market, w) then after
      else
        after.(groups := Accumulated(e.groups, w.Symbol(), GroupOf(ctx, w)),
               queue := e.queue.Put(tier, Item(w.Symbol().base, w.Symbol().quote, WriteVenue(w))))
    case Dequeue =>
      if e.inFlight.Some? then e
      else
        var (q, item) := e.queue.Get();
        e.(queue := q, inFlight := if item.Some? then Some(item.value.Key()) else None)
    case Drain =>
      if e.inFlight.None? then e
      else
        var symbol := e.inFlight.value;
        e.(groups := e.groups - {symbol}, inFlight := None,
           last := Rerun(ctx, e.market, symbol, PassGroups(e.groups, symbol), e.last))
  }

  function Run(cacheCfg: CacheConfig, ctx: Context, e: Engine, acts: seq<Action>): Engine
    decreases |acts|
  {
    if acts == [] then e else Run(cacheCfg, ctx, Step(cacheCfg, ctx, e, acts[0]), acts[1..])
  }

  // ── no group is lost ──

  /** A symbol that owes groups is queued or in the worker's hands. */
  ghost predicate Scheduled(e: Engine) {
    e.queue.Valid() && forall s :: s in e.groups ==> s in e.queue.pending || e.inFlight == Some(s)
  }

  /** A pass runs exactly the detectors its groups trigger: their outputs are new, all others what they were. */
  lemma PassRunsOnlyTriggered(cacheCfg: CacheConfig, ctx: Context, e: Engine, symbol: Pair, other: Pair, kind: ArbType)
    requires e.inFlight == Some(symbol)
    ensures var gs := if symbol in e.groups then e.groups[symbol] else {CexGroup, DexGroup, FundingGroup};
      Step(cacheCfg, ctx, e, Drain).Last(other, kind)
      == if other == symbol && (exists g :: g in gs && g in Triggers(kind)) then Detect(kind, ctx, e.market, symbol)
         else e.Last(other, kind)
  {
    hide Detect;
    var gs := if symbol in e.groups then e.groups[symbol] else {CexGroup, DexGroup, FundingGroup};
    assert Triggers(kind) * gs != {} <==> exists g :: g in gs && g in Triggers(kind) by {
      if g :| g in gs && g in Triggers(kind) {
        assert g in Triggers(kind) * gs;
      }
    }
  }

  lemma QueueStepKeepsScheduled(cacheCfg: CacheConfig, ctx: Context, e: Engine, a: Action)
    requires Scheduled(e)
    ensures Scheduled(Step(cacheCfg, ctx, e, a))
  {
    hide Queue.Valid, Keys, Apply, Emits, Detect;
    match a {
      case DoWrite(w, tier) =>
        PutKeepsValid(e.queue, tier, Item(w.Symbol().base, w.Symbol().quote, WriteVenue(w)));
      case Dequeue =>
        GetKeepsValid(e.queue);
      case Drain =>
    }
  }

  /** The groups the first pass over the symbol in this run uses, if there is one. */
  function FirstPass(cacheCfg: CacheConfig, ctx: Context, e: Engine, acts: seq<Action>,
                     symbol: Pair): Option<set<Group>>
    decreases |acts|
  {
    if acts == [] then None
    else if acts[0].Drain? && e.inFlight == Some(symbol) then Some(PassGroups(e.groups, symbol))
    else FirstPass(cacheCfg, ctx, Step(cacheCfg, ctx, e, acts[0]), acts[1..], symbol)
  }

  lemma {:induction false} OwedUntilPassed(cacheCfg: CacheConfig, ctx: Context, e: Engine, acts: seq<Action>,
                                           symbol: Pair, g: Group)
    requires Scheduled(e) && g in e.Owed(symbol)
    ensures match FirstPass(cacheCfg, ctx, e, acts, symbol)
      case Some(gs) => g in gs
      case None =>
        var end := Run(cacheCfg, ctx, e, acts);
        g in end.Owed(symbol) && (symbol in end.queue.pending || end.inFlight == Some(symbol))
    decreases |acts|
  {
    hide Step, Queue.Valid;
    if acts != [] && !(acts[0].Drain? && e.inFlight == Some(symbol)) {
      var next := Step(cacheCfg, ctx, e, acts[0]);
      QueueStepKeepsScheduled(cacheCfg, ctx, e, acts[0]);
      StillOwed(cacheCfg, ctx, e, acts[0], symbol, g);
      hide Scheduled;
      OwedUntilPassed(cacheCfg, ctx, next, acts[1..], symbol, g);
    }
  }

  lemma StillOwed(cacheCfg: CacheConfig, ctx: Context, e: Engine, a: Action, symbol: Pair, g: Group)
    requires g in e.Owed(symbol) && !(a.Drain? && e.inFlight == Some(symbol))
    ensures g in Step(cacheCfg, ctx, e, a).Owed(symbol)
  {
    hide Apply, Emits, Detect, Queue.Get, Queue.Put;
  }

  /** After an accepted write, the first pass over its symbol in any run includes the write's group;
      until that pass the group stays owed and the symbol stays queued or in flight. */
  lemma NoWriteIsLost(cacheCfg: CacheConfig, ctx: Context, e: Engine, w: Write, tier: Tier, acts: seq<Action>)
    requires Scheduled(e) && Emits(cacheCfg, e.market, w)
    ensures var written := Step(cacheCfg, ctx, e, DoWrite(w, tier));
      match FirstPass(cacheCfg, ctx, written, acts, w.Symbol())
      case Some(gs) => GroupOf(ctx, w) in gs
      case None =>
        var end := Run(cacheCfg, ctx, written, acts);
        GroupOf(ctx, w) in end.Owed(w.Symbol())
        && (w.Symbol() in end.queue.pending || end.inFlight == Some(w.Symbol()))
  {
    hide Scheduled, Apply, Emits, Detect, Run, FirstPass;
    QueueStepKeepsScheduled(cacheCfg, ctx, e, DoWrite(w, tier));
    OwedUntilPassed(cacheCfg, ctx, Step(cacheCfg, ctx, e, DoWrite(w, tier)), acts, w.Symbol(), GroupOf(ctx, w));
  }

  lemma OnlyItemIsServed(q: Queue, tier: Tier, item: Item)
    requires q.Size() == 0 && item.Key() !in q.pending
    ensures var (after, served) := q.Put(tier, item).Get();
      served == Some(item) && after.Size() == 0 && after.pending == q.pending
  {
    assert q.Put(tier, item).Of(tier) == [item];
  }

  lemma WriteThenDequeue(cacheCfg: CacheConfig, ctx: Context, e: Engine, base: string, rate: FundingRate, tier: Tier)
    requires e.queue.Size() == 0 && Pair(base, FUNDING_QUOTE) !in e.queue.pending && e.inFlight.None?
    ensures var w := FundingWrite(base, rate);
      var next := Step(cacheCfg, ctx, Step(cacheCfg, ctx, e, DoWrite(w, tier)), Dequeue);
      && next.inFlight == Some(Pair(base, FUNDING_QUOTE)) && next.queue.Size() == 0
        && next.queue.pending == e.queue.pending
      && next.groups == Accumulated(e.groups, Pair(base, FUNDING_QUOTE), FundingGroup)
  {
    hide Queue.Get, Queue.Put, Queue.Size, SetRate;
    OnlyItemIsServed(e.queue, tier, Item(base, FUNDING_QUOTE, rate.venue));
  }

  /** A pass can find no groups for its symbol: a write between a dequeue and its drain queues the symbol
      again, and that drain takes the write's group along. The pass then runs every detector. */
  lemma EmptyHandedPassIsReachable(cacheCfg: CacheConfig, ctx: Context, base: string, rate: FundingRate, tier: Tier)
    ensures var write := DoWrite(FundingWrite(base, rate), tier);
      var e := Run(cacheCfg, ctx, START, [write, Dequeue, write, Drain, Dequeue]);
      && e.inFlight == Some(Pair(base, FUNDING_QUOTE)) && e.inFlight.value !in e.groups
      && PassGroups(e.groups, e.inFlight.value) == ALL_GROUPS
  {
    hide Apply, Detect, Rerun, Queue.Get, Queue.Put, Queue.Size;
    var symbol := Pair(base, FUNDING_QUOTE);
    var write := DoWrite(FundingWrite(base, rate), tier);
    assert START.queue.Size() == 0 by { StartIsEmpty(); }
    WriteThenDequeue(cacheCfg, ctx, START, base, rate, tier);
    var e1 := Step(cacheCfg, ctx, START, write);
    var e2 := Step(cacheCfg, ctx, e1, Dequeue);
    OnlyItemIsServed(e2.queue, tier, Item(base, FUNDING_QUOTE, rate.venue));
    var e3 := Step(cacheCfg, ctx, e2, write);
    var e4 := Step(cacheCfg, ctx, e3, Drain);
    assert e4.inFlight == None && symbol !in e4.groups && e4.queue == e3.queue;
    var e5 := Step(cacheCfg, ctx, e4, Dequeue);
    assert e5.inFlight == Some(symbol) && symbol !in e5.groups;
    RunOfFive(cacheCfg, ctx, START, write, Dequeue, write, Drain, Dequeue);
  }

  lemma StartIsEmpty()
    ensures START.queue.Size() == 0
  {
  }

  lemma RunOfFive(cacheCfg: CacheConfig, ctx: Context, e: Engine, a: Action, b: Action, c: Action, d: Action, f: Action)
    ensures var s2 := Step(cacheCfg, ctx, Step(cacheCfg, ctx, e, a), b);
      Run(cacheCfg, ctx, e, [a, b, c, d, f])
      == Step(cacheCfg, ctx, Step(cacheCfg, ctx, Step(cacheCfg, ctx, s2, c), d), f)
  {
    hide Step;
    var s1 := Step(cacheCfg, ctx, e, a);
    var s2 := Step(cacheCfg, ctx, s1, b);
    var s3 := Step(cacheCfg, ctx, s2, c);
    var s4 := Step(cacheCfg, ctx, s3, d);
    assert [a, b, c, d, f][1..] == [b, c, d, f] && [b, c, d, f][1..] == [c, d, f] && [c, d, f][1..] == [d, f]
        && [d, f][1..] == [f];
    assert Run(cacheCfg, ctx, s4, [f]) == Step(cacheCfg, ctx, s4, f);
    assert Run(cacheCfg, ctx, s3, [d, f]) == Run(cacheCfg, ctx, s4, [f]);
    assert Run(cacheCfg, ctx, s2, [c, d, f]) == Run(cacheCfg, ctx, s3, [d, f]);
    assert Run(cacheCfg, ctx, s1, [b, c, d, f]) == Run(cacheCfg, ctx, s2, [c, d, f]);
  }

  /** Action i was an accepted write to the symbol. */
  predicate WritesAt(cacheCfg: CacheConfig, ctx: Context, acts: seq<Action>, i: int, symbol: Pair) {
    0 <= i < |acts| && acts[i].DoWrite? && acts[i].w.Symbol() == symbol
    && Emits(cacheCfg, Run(cacheCfg, ctx, START, acts[..i]).market, acts[i].w)
  }

  /** Action i was a pass over the symbol. */
  predicate PassesAt(cacheCfg: CacheConfig, ctx: Context, acts: seq<Action>, i: int, symbol: Pair) {
    0 <= i < |acts| && acts[i].Drain? && Run(cacheCfg, ctx, START, acts[..i]).inFlight == Some(symbol)
  }

  /** Something was accepted for the symbol since the last pass over it. */
  ghost predicate WrittenSincePass(cacheCfg: CacheConfig, ctx: Context, acts: seq<Action>, symbol: Pair) {
    exists i :: WritesAt(cacheCfg, ctx, acts, i, symbol)
                && forall j :: i < j < |acts| ==> !PassesAt(cacheCfg, ctx, acts, j, symbol)
  }

  /** In every run a symbol holds groups exactly when something was accepted for it since the last pass over it:
      so that is when the next pass over it finds any, and else it runs every detector. */
  lemma {:induction false} GroupsIffWrittenSincePass(cacheCfg: CacheConfig, ctx: Context, acts: seq<Action>,
                                                     symbol: Pair)
    ensures symbol in Run(cacheCfg, ctx, START, acts).groups <==> WrittenSincePass(cacheCfg, ctx, acts, symbol)
    decreases |acts|
  {
    hide Step, Emits;
    if acts == [] {
      assert !WrittenSincePass(cacheCfg, ctx, acts, symbol);
    } else {
      var n := |acts| - 1;
      var before := acts[..n];
      assert acts == before + [acts[n]];
      GroupsIffWrittenSincePass(cacheCfg, ctx, before, symbol);
      RunLast(cacheCfg, ctx, START, before, acts[n]);
      GroupsStep(cacheCfg, ctx, Run(cacheCfg, ctx, START, before), acts[n], symbol);
      SinceStep(cacheCfg, ctx, acts, symbol);
    }
  }

  lemma {:induction false} RunLast(cacheCfg: CacheConfig, ctx: Context, e: Engine, acts: seq<Action>, a: Action)
    ensures Run(cacheCfg, ctx, e, acts + [a]) == Step(cacheCfg, ctx, Run(cacheCfg, ctx, e, acts), a)
    decreases |acts|
  {
    hide Step;
    if acts == [] {
      assert [a][1..] == [] && Run(cacheCfg, ctx, Step(cacheCfg, ctx, e, a), []) == Step(cacheCfg, ctx, e, a);
      assert acts + [a] == [a];
    } else {
      assert (acts + [a])[1..] == acts[1..] + [a];
      RunLast(cacheCfg, ctx, Step(cacheCfg, ctx, e, acts[0]), acts[1..], a);
    }
  }

  lemma GroupsStep(cacheCfg: CacheConfig, ctx: Context, e: Engine, a: Action, symbol: Pair)
    ensures symbol in Step(cacheCfg, ctx, e, a).groups <==>
      (a.DoWrite? && a.w.Symbol() == symbol && Emits(cacheCfg, e.market, a.w))
      || (symbol in e.groups && !(a.Drain? && e.inFlight == Some(symbol)))
  {
    hide Apply, Emits, Detect, Queue.Get, Queue.Put, Rerun;
  }

  lemma SinceStep(cacheCfg: CacheConfig, ctx: Context, acts: seq<Action>, symbol: Pair)
    requires acts != []
    ensures var n := |acts| - 1;
      WrittenSincePass(cacheCfg, ctx, acts, symbol) <==>
        WritesAt(cacheCfg, ctx, acts, n, symbol)
        || (WrittenSincePass(cacheCfg, ctx, acts[..n], symbol) && !PassesAt(cacheCfg, ctx, acts, n, symbol))
  {
    hide WritesAt, PassesAt;
    var n := |acts| - 1;
    var before := acts[..n];
    forall i | 0 <= i < n
      ensures WritesAt(cacheCfg, ctx, before, i, symbol) <==> WritesAt(cacheCfg, ctx, acts, i, symbol)
      ensures PassesAt(cacheCfg, ctx, before, i, symbol) <==> PassesAt(cacheCfg, ctx, acts, i, symbol)
    {
      SamePrefix(cacheCfg, ctx, acts, n, i, symbol);
    }
    assert WritesAt(cacheCfg, ctx, acts, n, symbol) ==> WrittenSincePass(cacheCfg, ctx, acts, symbol);
    if WrittenSincePass(cacheCfg, ctx, before, symbol) && !PassesAt(cacheCfg, ctx, acts, n, symbol) {
      var i :| WritesAt(cacheCfg, ctx, before, i, symbol)
        && forall j :: i < j < n ==> !PassesAt(cacheCfg, ctx, before, j, symbol);
      assert 0 <= i < n by { InRun(cacheCfg, ctx, before, i, symbol); }
      assert WritesAt(cacheCfg, ctx, acts, i, symbol);
    }
    if WrittenSincePass(cacheCfg, ctx, acts, symbol) && !WritesAt(cacheCfg, ctx, acts, n, symbol) {
      var i :| WritesAt(cacheCfg, ctx, acts, i, symbol)
        && forall j :: i < j < |acts| ==> !PassesAt(cacheCfg, ctx, acts, j, symbol);
      assert 0 <= i < n by { InRun(cacheCfg, ctx, acts, i, symbol); }
      assert WritesAt(cacheCfg, ctx, before, i, symbol);
    }
  }

  lemma SamePrefix(cacheCfg: CacheConfig, ctx: Context, acts: seq<Action>, n: nat, i: nat, symbol: Pair)
    requires i < n <= |acts|
    ensures WritesAt(cacheCfg, ctx, acts[..n], i, symbol) <==> WritesAt(cacheCfg, ctx, acts, i, symbol)
    ensures PassesAt(cacheCfg, ctx, acts[..n], i, symbol) <==> PassesAt(cacheCfg, ctx, acts, i, symbol)
  {
    hide Emits, Run;
    assert acts[..n][..i] == acts[..i];
  }

  lemma InRun(cacheCfg: CacheConfig, ctx: Context, acts: seq<Action>, i: int, symbol: Pair)
    requires WritesAt(cacheCfg, ctx, acts, i, symbol)
    ensures 0 <= i < |acts|
  {
  }

  // ── what was detected incrementally is what a full scan would detect ──

  /** Funding events name the symbol quoted in USDT, so only there is the funding detector kept up to date. */
  predicate Routed(symbol: Pair, kind: ArbType) {
    kind == FUNDING ==> symbol.quote == FUNDING_QUOTE
  }

  /** A detector none of whose groups is owed last reported what it would report now. */
  ghost predicate UpToDate(ctx: Context, e: Engine, symbol: Pair, kind: ArbType) {
    Routed(symbol, kind) && Triggers(kind) * e.Owed(symbol) == {} ==>
      e.Last(symbol, kind) == Detect(kind, ctx, e.market, symbol)
  }

  lemma WriteKeepsUpToDate(cacheCfg: CacheConfig, ctx: Context, e: Engine, w: Write, tier: Tier, symbol: Pair,
                           kind: ArbType)
    requires UpToDate(ctx, e, symbol, kind)
    ensures UpToDate(ctx, Step(cacheCfg, ctx, e, DoWrite(w, tier)), symbol, kind)
  {
    hide Apply, Emits, Detect;
    var after := Step(cacheCfg, ctx, e, DoWrite(w, tier));
    assert after.market == Apply(cacheCfg, e.market, w) && after.last == e.last;
    assert e.Owed(symbol) <= after.Owed(symbol);
    if Routed(symbol, kind) && Triggers(kind) * after.Owed(symbol) == {} {
      assert Triggers(kind) * e.Owed(symbol) == {};
      if Emits(cacheCfg, e.market, w) && symbol == w.Symbol() {
        var g := GroupOf(ctx, w);
        assert g in after.Owed(symbol);
        assert g in Triggers(kind) ==> g in Triggers(kind) * after.Owed(symbol);
      }
      UnreachedDetectionsAreUnchanged(cacheCfg, ctx, e.market, w, kind, symbol);
    }
  }

  lemma PassKeepsUpToDate(cacheCfg: CacheConfig, ctx: Context, e: Engine, symbol: Pair, kind: ArbType)
    requires UpToDate(ctx, e, symbol, kind)
    ensures UpToDate(ctx, Step(cacheCfg, ctx, e, Drain), symbol, kind)
  {
    hide Detect;
    if e.inFlight == Some(symbol) {
      var gs := PassGroups(e.groups, symbol);
      assert ALL_GROUPS * Triggers(kind) == Triggers(kind);
      if Triggers(kind) * gs != {} {
        assert (symbol, kind) in Rerun(ctx, e.market, symbol, gs, e.last);
      }
    }
  }

  /** Every run keeps this: every detector not owed a pass is up to date for every symbol it is routed to. */
  lemma {:induction false} RunKeepsUpToDate(cacheCfg: CacheConfig, ctx: Context, e: Engine, acts: seq<Action>)
    requires Scheduled(e) && forall s, kind :: UpToDate(ctx, e, s, kind)
    ensures var end := Run(cacheCfg, ctx, e, acts); Scheduled(end) && forall s, kind :: UpToDate(ctx, end, s, kind)
    decreases |acts|
  {
    hide Scheduled, UpToDate;
    if acts != [] {
      var next := Step(cacheCfg, ctx, e, acts[0]);
      QueueStepKeepsScheduled(cacheCfg, ctx, e, acts[0]);
      forall s, kind ensures UpToDate(ctx, next, s, kind) {
        StepKeepsUpToDate(cacheCfg, ctx, e, acts[0], s, kind);
      }
      hide Step;
      RunKeepsUpToDate(cacheCfg, ctx, next, acts[1..]);
    }
  }

  lemma StepKeepsUpToDate(cacheCfg: CacheConfig, ctx: Context, e: Engine, a: Action, symbol: Pair, kind: ArbType)
    requires UpToDate(ctx, e, symbol, kind)
    ensures UpToDate(ctx, Step(cacheCfg, ctx, e, a), symbol, kind)
  {
    match a {
      case DoWrite(w, tier) => WriteKeepsUpToDate(cacheCfg, ctx, e, w, tier, symbol, kind);
      case Drain => PassKeepsUpToDate(cacheCfg, ctx, e, symbol, kind);
      case Dequeue =>
    }
  }

  lemma NothingToDetectAtStart(ctx: Context, symbol: Pair, kind: ArbType)
    ensures Detect(kind, ctx, NO_MARKET, symbol) == []
  {
  }

  lemma StartIsUpToDate(ctx: Context, symbol: Pair, kind: ArbType)
    ensures UpToDate(ctx, START, symbol, kind)
  {
    hide Detect;
    NothingToDetectAtStart(ctx, symbol, kind);
  }

  lemma StartIsScheduled()
    ensures Scheduled(START)
  {
  }

  lemma IdleOwesNothing(ctx: Context, e: Engine, symbol: Pair, kind: ArbType)
    requires Scheduled(e) && UpToDate(ctx, e, symbol, kind)
    requires Routed(symbol, kind) && e.queue.Size() == 0 && e.inFlight.None?
    ensures e.Last(symbol, kind) == Detect(kind, ctx, e.market, symbol)
  {
    hide Detect;
    PendingCount(e.queue);
    assert e.queue.pending == {};
    assert symbol !in e.groups;
  }

  /** Incremental detection equals full detection: whenever the queue is empty and the worker idle, each
      detector's last output for each symbol is what running it on the whole market would give. */
  lemma QuiescentIsFullScan(cacheCfg: CacheConfig, ctx: Context, acts: seq<Action>, symbol: Pair, kind: ArbType)
    requires Routed(symbol, kind)
    requires var e := Run(cacheCfg, ctx, START, acts); e.queue.Size() == 0 && e.inFlight.None?
    ensures var e := Run(cacheCfg, ctx, START, acts); e.Last(symbol, kind) == Detect(kind, ctx, e.market, symbol)
  {
    hide Detect, Run, Scheduled, UpToDate;
    forall s, k ensures UpToDate(ctx, START, s, k) {
      StartIsUpToDate(ctx, s, k);
    }
    StartIsScheduled();
    RunKeepsUpToDate(cacheCfg, ctx, START, acts);
    var e := Run(cacheCfg, ctx, START, acts);
    assert UpToDate(ctx, e, symbol, kind);
    IdleOwesNothing(ctx, e, symbol, kind);
  }

  // ── the engine's side of the queue ──

  /** The accumulated groups beside the queue object. */
  class GroupTracker {
    const queue: PriorityEventQueue
    var pendingGroups: map<Pair, set<Group>>

    constructor ()
      ensures fresh(queue) && pendingGroups == map[]
      ensures queue.View() == Queue([], [], [], {}, 0, 0, 0, false) && queue.View().Valid()
    {
      hide *;
      queue := new PriorityEventQueue();
      pendingGroups := map[];
    }

    method AccumulateGroup(symbol: Pair, g: Group)
      modifies this`pendingGroups
      ensures pendingGroups == Accumulated(old(pendingGroups), symbol, g)
    {
      if symbol !in pendingGroups {
        pendingGroups := pendingGroups[symbol := {g}];
      } else {
        pendingGroups := pendingGroups[symbol := pendingGroups[symbol] + {g}];
      }
    }

    method OnCacheWrite(ctx: Context, symbol: Pair, venue: string, tier: Tier)
      requires queue.View().Valid()
      modifies this`pendingGroups, queue
      ensures pendingGroups == Accumulated(old(pendingGroups), symbol, VenueGroup(ctx, venue))
      ensures queue.View() == old(queue.View()).Put(tier, Item(symbol.base, symbol.quote, venue))
      ensures queue.View().Valid()
    {
      AccumulateGroup(symbol, VenueGroup(ctx, venue));
      queue.Put(tier, Item(symbol.base, symbol.quote, venue));
    }

    method OnFundingWrite(base: string, venue: string, tier: Tier)
      requires queue.View().Valid()
      modifies this`pendingGroups, queue
      ensures pendingGroups == Accumulated(old(pendingGroups), Pair(base, FUNDING_QUOTE), FundingGroup)
      ensures queue.View() == old(queue.View()).Put(tier, Item(base, FUNDING_QUOTE, venue))
      ensures queue.View().Valid()
    {
      AccumulateGroup(Pair(base, FUNDING_QUOTE), FundingGroup);
      queue.Put(tier, Item(base, FUNDING_QUOTE, venue));
    }

    /** The worker takes the groups of the symbol it dequeued. */
    method DrainGroups(symbol: Pair) returns (gs: set<Group>)
      modifies this`pendingGroups
      ensures gs == PassGroups(old(pendingGroups), symbol)
      ensures pendingGroups == old(pendingGroups) - {symbol}
    {
      gs := if symbol in pendingGroups then pendingGroups[symbol] else ALL_GROUPS;
      pendingGroups := pendingGroups - {symbol};
    }
  }
}
