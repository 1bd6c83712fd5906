/** The Free plan's delivery quota (src/services/signal_access_service.py, the delivery ledger, and the two
    flows that check, deliver and then charge). One user's ledger is a set of signal ids. */
module Quota {
  import opened Prelude

  type Id = string

  // ── what may be shown ──

  /** How many of the first n signals have not been delivered before. */
  function NewAmong(signals: seq<Id>, ledger: set<Id>, n: nat): (k: nat)
    requires n <= |signals|
    ensures k <= n
    decreases n
  {
    if n == 0 then 0 else NewAmong(signals, ledger, n - 1) + (if signals[n - 1] in ledger then 0 else 1)
  }

  /** In their order: every signal delivered before, and the first `remaining` of the others. */
  function Shown(signals: seq<Id>, ledger: set<Id>, remaining: nat, n: nat): seq<Id>
    requires n <= |signals|
    decreases n
  {
    if n == 0 then []
    else
      var s := signals[n - 1];
      Shown(signals, ledger, remaining, n - 1)
      + (if s in ledger || NewAmong(signals, ledger, n - 1) < remaining then [s] else [])
  }

  function Remaining(quota: nat, ledger: set<Id>): nat {
    if |ledger| >= quota then 0 else quota - |ledger|
  }

  /** The loop that spends the budget signal by signal. */
  method Allowance(signals: seq<Id>, ledger: set<Id>, quota: nat) returns (visible: seq<Id>, remaining: nat)
    ensures remaining == Remaining(quota, ledger)
    ensures visible == Shown(signals, ledger, remaining, |signals|)
  {
    remaining := Remaining(quota, ledger);
    var budget := remaining;
    visible := [];
    for i := 0 to |signals|
      invariant visible == Shown(signals, ledger, remaining, i)
      invariant budget == if NewAmong(signals, ledger, i) >= remaining then 0
          else remaining - NewAmong(signals, ledger, i)
    {
      if signals[i] in ledger {
        visible := visible + [signals[i]];
      } else if budget > 0 {
        visible := visible + [signals[i]];
        budget := budget - 1;
      }
    }
  }

  /** What a page would newly charge. */
  function Charge(page: seq<Id>, ledger: set<Id>): set<Id> {
    set id | id in page && id !in ledger
  }

  lemma ChargeOfLast(page: seq<Id>, ledger: set<Id>)
    requires page != []
    ensures var rest, last := page[..|page| - 1], page[|page| - 1];
      && |Charge(page, ledger)| <= |Charge(rest, ledger)| + (if last in ledger then 0 else 1)
      && Charge(page, ledger) == Charge(rest, ledger) + (if last in ledger then {} else {last})
  {
    var rest, last := page[..|page| - 1], page[|page| - 1];
    assert page == rest + [last];
    assert Charge(page, ledger) == Charge(rest, ledger) + (if last in ledger then {} else {last});
  }

  /** What is shown charges at most the remaining budget. */
  lemma {:induction false} ShownChargesWithinBudget(signals: seq<Id>, ledger: set<Id>, remaining: nat, n: nat)
    requires n <= |signals|
    ensures var charged := |Charge(Shown(signals, ledger, remaining, n), ledger)|;
      charged <= remaining && charged <= NewAmong(signals, ledger, n)
    decreases n
  {
    if n > 0 {
      ShownChargesWithinBudget(signals, ledger, remaining, n - 1);
      var before, after := Shown(signals, ledger, remaining, n - 1), Shown(signals, ledger, remaining, n);
      if after != before {
        assert after[..|after| - 1] == before;
        ChargeOfLast(after, ledger);
      }
    } else {
      assert Charge([], ledger) == {};
    }
  }

  /** Each signal listed once. */
  ghost predicate Listed(signals: seq<Id>) {
    forall i, j :: 0 <= i < j < |signals| ==> signals[i] != signals[j]
  }

  /** What is shown: of a list without repetitions exactly the signals delivered before, and those of the others
      that have fewer than `remaining` others before them. */
  lemma {:induction false} ShownIff(signals: seq<Id>, ledger: set<Id>, remaining: nat, n: nat, i: nat)
    requires Listed(signals) && i < n <= |signals|
    ensures signals[i] in Shown(signals, ledger, remaining, n)
            <==> signals[i] in ledger || |NewBefore(signals, ledger, i)| < remaining
    decreases n
  {
    NewAmongIsCount(signals, ledger, i);
    ShownAreListed(signals, ledger, remaining, n - 1);
    if i < n - 1 {
      ShownIff(signals, ledger, remaining, n - 1, i);
    }
  }

  /** The signals not delivered before among the first i. */
  ghost function NewBefore(signals: seq<Id>, ledger: set<Id>, i: nat): set<Id>
    requires i <= |signals|
  {
    set j | 0 <= j < i && signals[j] !in ledger :: signals[j]
  }

  lemma {:induction false} NewAmongIsCount(signals: seq<Id>, ledger: set<Id>, n: nat)
    requires Listed(signals) && n <= |signals|
    ensures NewAmong(signals, ledger, n) == |NewBefore(signals, ledger, n)|
    decreases n
  {
    if n > 0 {
      NewAmongIsCount(signals, ledger, n - 1);
      var before, last := NewBefore(signals, ledger, n - 1), signals[n - 1];
      assert last !in before;
      assert NewBefore(signals, ledger, n) == if last in ledger then before else before + {last};
    } else {
      assert NewBefore(signals, ledger, 0) == {};
    }
  }

  lemma {:induction false} ShownAreListed(signals: seq<Id>, ledger: set<Id>, remaining: nat, n: nat)
    requires n <= |signals|
    ensures forall s :: s in Shown(signals, ledger, remaining, n) ==> exists j :: 0 <= j < n && signals[j] == s
    decreases n
  {
    if n > 0 {
      ShownAreListed(signals, ledger, remaining, n - 1);
    }
  }

  lemma SubsetCardinality(a: set<Id>, b: set<Id>)
    requires a <= b
    ensures |a| <= |b|
    decreases a
  {
    if a != {} {
      var x :| x in a;
      SubsetCardinality(a - {x}, b - {x});
    }
  }

  // ── flows: check, deliver, charge ──

  /** A delivery between its check and its charge; `charge` is what it may newly write to the ledger. */
  datatype Flow = Flow(page: seq<Id>, charge: set<Id>)

  datatype State = State(ledger: set<Id>, flows: seq<Flow>)

  datatype Event =
    | AlertCheck(id: Id)
    | ListCheck(signals: seq<Id>, first: nat, last: nat)
    | Delivered(i: nat)
    | NotDelivered(i: nat)

  function Without(flows: seq<Flow>, i: nat): seq<Flow>
    requires i < |flows|
  {
    flows[..i] + flows[i + 1..]
  }

  function Begun(s: State, page: seq<Id>): State {
    s.(flows := s.flows + [Flow(page, Charge(page, s.ledger))])
  }

  function Elements(ids: seq<Id>): set<Id> {
    set id | id in ids
  }

  /** Recording is idempotent per signal: the ledger is a set. */
  function Recorded(ledger: set<Id>, page: seq<Id>): set<Id> {
    ledger + Elements(page)
  }

  function Step(quota: nat, s: State, e: Event): State {
    match e
    case AlertCheck(id) => if Remaining(quota, s.ledger) == 0 then s else Begun(s, [id])
    case ListCheck(signals, first, last) =>
      var remaining := Remaining(quota, s.ledger);
      var visible := Shown(signals, s.ledger, remaining, |signals|);
      if remaining == 0 || !(first <= last <= |visible|) then s else Begun(s, visible[first..last])
    case Delivered(i) =>
      if i >= |s.flows| then s else State(Recorded(s.ledger, s.flows[i].page), Without(s.flows, i))
    case NotDelivered(i) => if i >= |s.flows| then s else s.(flows := Without(s.flows, i))
  }

  function Run(quota: nat, s: State, events: seq<Event>): State
    decreases |events|
  {
    if events == [] then s else Run(quota, Step(quota, s, events[0]), events[1..])
  }

  /** At most k flows are ever between check and charge. */
  ghost predicate AtMostInFlight(quota: nat, s: State, events: seq<Event>, k: nat)
    decreases |events|
  {
    |s.flows| <= k && (events == [] || AtMostInFlight(quota, Step(quota, s, events[0]), events[1..], k))
  }

  function Charges(flows: seq<Flow>): nat {
    if flows == [] then 0 else Charges(flows[..|flows| - 1]) + |flows[|flows| - 1].charge|
  }

  lemma {:induction false} ChargesWithout(flows: seq<Flow>, i: nat)
    requires i < |flows|
    ensures Charges(flows) == Charges(Without(flows, i)) + |flows[i].charge|
    decreases |flows|
  {
    var rest, last := flows[..|flows| - 1], flows[|flows| - 1];
    if i < |flows| - 1 {
      ChargesWithout(rest, i);
      assert Without(flows, i) == Without(rest, i) + [last];
      assert (Without(rest, i) + [last])[..|flows| - 2] == Without(rest, i);
    } else {
      assert Without(flows, i) == rest;
    }
  }

  lemma {:induction false} ChargesBound(flows: seq<Flow>, each: nat)
    requires forall f :: f in flows ==> |f.charge| <= each
    ensures Charges(flows) <= |flows| * each
  {
    if flows != [] {
      ChargesBound(flows[..|flows| - 1], each);
      assert flows[|flows| - 1] in flows;
      assert |flows| * each == (|flows| - 1) * each + each;
    }
  }

  /** A flow's charge covers everything its page can still add. */
  ghost predicate Covers(s: State, each: nat) {
    forall f :: f in s.flows ==> |f.charge| <= each && Charge(f.page, s.ledger) <= f.charge
  }

  lemma StepKeepsCovers(quota: nat, s: State, e: Event, each: nat)
    requires Covers(s, each) && each > 0
    requires each >= quota || !e.ListCheck?
    ensures Covers(Step(quota, s, e), each)
  {
    match e {
      case AlertCheck(id) =>
        ChargeOfLast([id], s.ledger);
        assert Charge([], s.ledger) == {};
      case ListCheck(signals, first, last) =>
        PageChargesWithinBudget(quota, s.ledger, signals, first, last);
      case _ =>
    }
  }

  lemma PageChargesWithinBudget(quota: nat, ledger: set<Id>, signals: seq<Id>, first: nat, last: nat)
    ensures var visible := Shown(signals, ledger, Remaining(quota, ledger), |signals|);
      first <= last <= |visible| ==> |Charge(visible[first..last], ledger)| <= Remaining(quota, ledger)
  {
    var visible := Shown(signals, ledger, Remaining(quota, ledger), |signals|);
    ShownChargesWithinBudget(signals, ledger, Remaining(quota, ledger), |signals|);
    if first <= last <= |visible| {
      SubsetCardinality(Charge(visible[first..last], ledger), Charge(visible, ledger));
    }
  }

  /** Delivering moves at most its charge from the flows to the ledger. */
  lemma DeliveryConserves(s: State, i: nat, each: nat)
    requires Covers(s, each) && i < |s.flows|
    ensures |Recorded(s.ledger, s.flows[i].page)| + Charges(Without(s.flows, i)) <= |s.ledger| + Charges(s.flows)
  {
    var f := s.flows[i];
    assert f in s.flows;
    ChargesWithout(s.flows, i);
    var added := Charge(f.page, s.ledger);
    SubsetCardinality(added, f.charge);
    assert Recorded(s.ledger, f.page) == s.ledger + added;
  }

  /** With at most k flows in flight the ledger, and all that is in flight, stays within k quotas. */
  lemma {:induction false} ConcurrentFlowsBounded(quota: nat, s: State, events: seq<Event>, k: nat)
    requires k > 0 && quota > 0 && AtMostInFlight(quota, s, events, k)
    requires Covers(s, quota) && |s.ledger| + Charges(s.flows) <= k * quota
    ensures var end := Run(quota, s, events); |end.ledger| + Charges(end.flows) <= k * quota
    decreases |events|
  {
    hide Covers, Shown;
    if events != [] {
      var e, next := events[0], Step(quota, s, events[0]);
      StepKeepsCovers(quota, s, e, quota);
      if e.AlertCheck? || e.ListCheck? {
        CheckAddsLittle(quota, s, e);
      }
      assert Covers(s, quota) ==> Charges(s.flows) <= |s.flows| * quota by {
        CoversBound(s, quota);
      }
      if e.Delivered? && e.i < |s.flows| {
        DeliveryConserves(s, e.i, quota);
      } else if e.NotDelivered? && e.i < |s.flows| {
        ChargesWithout(s.flows, e.i);
      } else if next != s {
        assert |next.flows| == |s.flows| + 1 <= k;
        WithinProduct(|s.flows|, k, quota);
      }
      ConcurrentFlowsBounded(quota, next, events[1..], k);
    }
  }

  lemma WithinProduct(m: nat, k: nat, quota: nat)
    requires m + 1 <= k
    ensures m * quota + quota <= k * quota
  {
    var rest: nat := k - m - 1;
    assert rest * quota >= 0;
    assert k * quota == m * quota + quota + rest * quota;
  }

  lemma CoversBound(s: State, each: nat)
    requires Covers(s, each)
    ensures Charges(s.flows) <= |s.flows| * each
  {
    ChargesBound(s.flows, each);
  }

  /** A check that begins a flow does so with budget left, and adds no more than that. */
  lemma CheckAddsLittle(quota: nat, s: State, e: Event)
    requires e.AlertCheck? || e.ListCheck?
    ensures var next := Step(quota, s, e);
      next == s ||
      (|next.flows| == |s.flows| + 1 && next.ledger == s.ledger && |s.ledger| < quota
       && Charges(next.flows) <= Charges(s.flows) + (if e.AlertCheck? then 1 else quota - |s.ledger|))
  {
    var next := Step(quota, s, e);
    if next != s {
      assert next.flows[..|s.flows|] == s.flows;
      if e.AlertCheck? {
        ChargeOfLast([e.id], s.ledger);
        assert Charge([], s.ledger) == {};
      } else {
        PageChargesWithinBudget(quota, s.ledger, e.signals, e.first, e.last);
      }
    }
  }

  /** Flows that never overlap keep the ledger within the quota. */
  lemma SerialFlowsWithinQuota(quota: nat, events: seq<Event>)
    requires quota > 0 && AtMostInFlight(quota, State({}, []), events, 1)
    ensures |Run(quota, State({}, []), events).ledger| <= quota
  {
    ConcurrentFlowsBounded(quota, State({}, []), events, 1);
  }

  ghost predicate AlertsOnly(events: seq<Event>) {
    forall e :: e in events ==> !e.ListCheck?
  }

  /** With at most k alerts between check and charge, the ledger and those in flight never exceed the quota
      by more than k - 1. */
  lemma {:induction false} AlertsOverrunByLessThanK(quota: nat, s: State, events: seq<Event>, k: nat)
    requires k > 0 && quota > 0 && AlertsOnly(events) && AtMostInFlight(quota, s, events, k)
    requires Covers(s, 1) && |s.ledger| + Charges(s.flows) <= quota - 1 + k
    ensures var end := Run(quota, s, events); |end.ledger| + Charges(end.flows) <= quota - 1 + k
    decreases |events|
  {
    hide Covers, Shown;
    if events != [] {
      var e, next := events[0], Step(quota, s, events[0]);
      assert e in events;
      StepKeepsCovers(quota, s, e, 1);
      CoversBound(s, 1);
      if e.Delivered? && e.i < |s.flows| {
        DeliveryConserves(s, e.i, 1);
      } else if e.NotDelivered? && e.i < |s.flows| {
        ChargesWithout(s.flows, e.i);
      } else if e.AlertCheck? {
        CheckAddsLittle(quota, s, e);
      }
      AlertsOverrunByLessThanK(quota, next, events[1..], k);
    }
  }

  // ── the bound is reached ──

  function Checks(ids: seq<Id>): seq<Event> {
    if ids == [] then [] else [AlertCheck(ids[0])] + Checks(ids[1..])
  }

  function Deliveries(n: nat): seq<Event> {
    if n == 0 then [] else [Delivered(0)] + Deliveries(n - 1)
  }

  function FlowsFor(ids: seq<Id>, ledger: set<Id>): seq<Flow> {
    if ids == [] then [] else [Flow([ids[0]], Charge([ids[0]], ledger))] + FlowsFor(ids[1..], ledger)
  }

  lemma RunHead(quota: nat, s: State, e: Event, rest: seq<Event>)
    ensures Run(quota, s, [e] + rest) == Run(quota, Step(quota, s, e), rest)
  {
    hide Step;
    assert ([e] + rest)[1..] == rest;
  }

  lemma CheckPasses(quota: nat, s: State, id: Id)
    requires |s.ledger| < quota
    ensures Step(quota, s, AlertCheck(id)) == State(s.ledger, s.flows + [Flow([id], Charge([id], s.ledger))])
  {
  }

  lemma {:induction false} ChecksAllPass(quota: nat, s: State, ids: seq<Id>)
    requires |s.ledger| < quota
    ensures Run(quota, s, Checks(ids)) == State(s.ledger, s.flows + FlowsFor(ids, s.ledger))
    decreases |ids|
  {
    if ids == [] {
      assert s.flows + [] == s.flows;
    } else {
      hide Step, Charge, Run;
      var next := Step(quota, s, AlertCheck(ids[0]));
      CheckPasses(quota, s, ids[0]);
      RunHead(quota, s, AlertCheck(ids[0]), Checks(ids[1..]));
      ChecksAllPass(quota, next, ids[1..]);
      var first := Flow([ids[0]], Charge([ids[0]], s.ledger));
      assert (s.flows + [first]) + FlowsFor(ids[1..], s.ledger) == s.flows + ([first] + FlowsFor(ids[1..], s.ledger));
    }
  }

  lemma FirstDelivery(quota: nat, ledger: set<Id>, ids: seq<Id>, at: set<Id>)
    requires ids != []
    ensures Step(quota, State(ledger, FlowsFor(ids, at)), Delivered(0))
        == State(ledger + {ids[0]}, FlowsFor(ids[1..], at))
  {
    hide Charge;
    var flows := FlowsFor(ids, at);
    assert Without(flows, 0) == FlowsFor(ids[1..], at);
    assert Elements([ids[0]]) == {ids[0]};
  }

  lemma ElementsOfHead(ids: seq<Id>)
    requires ids != []
    ensures Elements(ids) == {ids[0]} + Elements(ids[1..])
  {
    assert ids == [ids[0]] + ids[1..];
  }

  lemma {:induction false} DeliveriesAllRecord(quota: nat, ledger: set<Id>, ids: seq<Id>, at: set<Id>)
    ensures Run(quota, State(ledger, FlowsFor(ids, at)), Deliveries(|ids|)) == State(ledger + Elements(ids), [])
    decreases |ids|
  {
    if ids == [] {
      assert ledger + Elements(ids) == ledger;
    } else {
      hide Step, Run, Elements;
      var s := State(ledger, FlowsFor(ids, at));
      FirstDelivery(quota, ledger, ids, at);
      RunHead(quota, s, Delivered(0), Deliveries(|ids| - 1));
      DeliveriesAllRecord(quota, ledger + {ids[0]}, ids[1..], at);
      ElementsOfHead(ids);
      assert (ledger + {ids[0]}) + Elements(ids[1..]) == ledger + Elements(ids);
    }
  }

  /** One slot short of the quota, any number of alerts checked before the first is charged are all
      delivered and all charged. */
  lemma OverrunIsReached(quota: nat, ledger: set<Id>, ids: seq<Id>)
    requires |ledger| + 1 == quota
    ensures var checked := Run(quota, State(ledger, []), Checks(ids));
      Run(quota, checked, Deliveries(|ids|)).ledger == ledger + Elements(ids)
  {
    ChecksAllPass(quota, State(ledger, []), ids);
    assert [] + FlowsFor(ids, ledger) == FlowsFor(ids, ledger);
    DeliveriesAllRecord(quota, ledger, ids, ledger);
  }

  // ── the ledger object ──

  class DeliveryLedger {
    var delivered: set<Id>

    constructor ()
      ensures delivered == {}
    {
      delivered := {};
    }

    /** One confirmed delivery: true exactly when it took a new slot. */
    method Record(id: Id) returns (consumed: bool)
      modifies this
      ensures delivered == old(delivered) + {id}
      ensures consumed <==> id !in old(delivered)
    {
      consumed := id !in delivered;
      delivered := delivered + {id};
    }

    /** A batch: the slots reported as consumed are those by which the ledger grew. */
    method RecordDeliveries(ids: seq<Id>) returns (consumed: nat)
      modifies this
      ensures delivered == Recorded(old(delivered), ids)
      ensures consumed == |delivered| - |old(delivered)|
    {
      consumed := 0;
      assert Elements(ids[..0]) == {};
      for i := 0 to |ids|
        invariant delivered == old(delivered) + Elements(ids[..i])
        invariant consumed == |delivered| - |old(delivered)|
      {
        assert ids[..i + 1] == ids[..i] + [ids[i]];
        assert Elements(ids[..i + 1]) == Elements(ids[..i]) + {ids[i]};
        ghost var before := delivered;
        var took := Record(ids[i]);
        assert took ==> |before + {ids[i]}| == |before| + 1;
        assert !took ==> before + {ids[i]} == before;
        if took {
          consumed := consumed + 1;
        }
      }
      assert ids[..|ids|] == ids;
    }
  }
}
