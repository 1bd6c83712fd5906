/** Settlement of purchases (src/services/purchase_service.py, subscription_service.py,
    payments/webhook.py, payments/reconciler.py), one step per database transaction, with checkouts,
    webhook deliveries, reconciliation and crashes interleaved in any way. */
module Payments {
  import opened Prelude

  type Id = string

  datatype Status = CREATED | PENDING | PAID | FAILED | CANCELLED | EXPIRED {
    predicate IsOpen() {
      CREATED? || PENDING?
    }
  }

  /** The declared transitions: everything but PAID, FAILED, CANCELLED and EXPIRED can still move. */
  predicate CanTransition(current: Status, target: Status) {
    match current
    case CREATED => target != CREATED
    case PENDING => target != CREATED && target != PENDING
    case _ => false
  }

  /** What a callback says, after signature check and parsing. */
  datatype Update = Update(
    valid: bool,
    updateId: Option<int>,
    reportsPaid: bool,
    purchase: Option<Id>,
    amountMatches: bool,
    invoice: Option<string>)

  datatype Purchase = Purchase(user: int, amount: real, status: Status, invoice: Option<string>)

  /** A row of billing history; its payment reference names the purchase. */
  datatype Grant = Grant(purchase: Id, user: int, amount: real)

  /** A process between two transactions. */
  datatype Process =
    | FindPurchase(user: int, amount: real, freshId: Id)
    | RequestInvoice(id: Id)
    | RecordInvoice(id: Id, issued: string)
    | CheckSeen(u: Update)
    | RecordEvent(u: Update)
    | JudgeUpdate(u: Update)
    | JudgePoll(id: Id, reportsPaid: bool)
    | ReadPurchase(id: Id, invoice: Option<string>)
    | Activate(id: Id, user: int, amount: real, invoice: Option<string>)
    | WritePaid(id: Id, invoice: Option<string>)
    | CloseFailed(id: Id)
    | Confirm(id: Id)
    | Finished

  datatype World = World(
    purchases: map<Id, Purchase>,
    users: set<int>,
    pro: set<int>,
    billing: seq<Grant>,
    seen: set<int>,
    confirmed: seq<Id>,
    procs: seq<Process>)
  {
    predicate Has(id: Id, status: Status) {
      id in purchases && purchases[id].status == status
    }

    /** The user has a checkout that can be resumed. */
    predicate HasOpen(user: int) {
      exists id :: id in purchases && purchases[id].user == user && purchases[id].status.IsOpen()
    }

    predicate Granted(id: Id) {
      exists g :: g in billing && g.purchase == id
    }
  }

  /** Legal close of a purchase; an illegal one raises and changes nothing. */
  function Closed(w: World, id: Id, status: Status): World {
    if id in w.purchases && CanTransition(w.purchases[id].status, status)
    then w.(purchases := w.purchases[id := w.purchases[id].(status := status)]) else w
  }

  /** The next transaction of a process. `answer` is what the outside says: the open purchase found, or the
      invoice issued. An answer that cannot be given leaves the process where it is. */
  function Transact(w: World, p: Process, answer: Option<string>): (World, Process) {
    match p
    case FindPurchase(user, amount, freshId) =>
      if answer.Some? then
        var id := answer.value;
        if id in w.purchases && w.purchases[id].user == user && w.purchases[id].status.IsOpen()
        then (w, RequestInvoice(id)) else (w, p)
      else if freshId in w.purchases || w.HasOpen(user) then (w, p)
      else (w.(purchases := w.purchases[freshId := Purchase(user, amount, CREATED, None)]), RequestInvoice(freshId))
    case RequestInvoice(id) =>
      if answer.None? then (Closed(w, id, CANCELLED), Finished) else (w, RecordInvoice(id, answer.value))
    case RecordInvoice(id, invoice) =>
      if id in w.purchases && CanTransition(w.purchases[id].status, PENDING)
      then (w.(purchases := w.purchases[id := w.purchases[id].(status := PENDING, invoice := Some(invoice))]), Finished)
      else (w, Finished)
    case CheckSeen(u) =>
      if u.valid && u.updateId.Some? && u.updateId.value in w.seen then (w, Finished) else (w, RecordEvent(u))
    case RecordEvent(u) =>
      if u.updateId.None? then (w, JudgeUpdate(u))
      else if u.updateId.value in w.seen then (w, Finished)
      else (w.(seen := w.seen + {u.updateId.value}), JudgeUpdate(u))
    case JudgeUpdate(u) =>
      if !u.valid || !u.reportsPaid || u.purchase.None? || u.purchase.value !in w.purchases
         || !u.amountMatches || w.Has(u.purchase.value, PAID)
      then (w, Finished) else (w, ReadPurchase(u.purchase.value, u.invoice))
    case JudgePoll(id, reportsPaid) =>
      if !reportsPaid then (Closed(w, id, EXPIRED), Finished)
      else if id !in w.purchases || w.Has(id, PAID) then (w, Finished)
      else (w, ReadPurchase(id, w.purchases[id].invoice))
    case ReadPurchase(id, invoice) =>
      if id !in w.purchases then (w, Finished)
      else if w.Has(id, PAID) then (w, Confirm(id))
      else if !w.purchases[id].status.IsOpen() then (w, Finished)
      else (w, Activate(id, w.purchases[id].user, w.purchases[id].amount, invoice))
    case Activate(id, user, amount, invoice) =>
      if user !in w.users then (w, CloseFailed(id))
      else if w.Granted(id) then (w, WritePaid(id, invoice))
      else (w.(pro := w.pro + {user}, billing := w.billing + [Grant(id, user, amount)]), WritePaid(id, invoice))
    case WritePaid(id, invoice) =>
      if id !in w.purchases then (w, Finished)
      else if w.Has(id, PAID) then (w, Confirm(id))
      else if !CanTransition(w.purchases[id].status, PAID) then (w, Finished)
      else
        var row := w.purchases[id];
        (w.(purchases := w.purchases[id := row.(status := PAID, invoice := if invoice.Some? then invoice
          else row.invoice)]),
         Confirm(id))
    case CloseFailed(id) => (Closed(w, id, FAILED), Finished)
    case Confirm(id) => (w.(confirmed := w.confirmed + [id]), Finished)
    case Finished => (w, Finished)
  }

  datatype Event =
    | Spawn(p: Process)
    | Advance(i: nat, answer: Option<string>)
    | Crash(i: nat)

  /** Processes begin with a user's tap, a delivered callback, or a poll of a pending purchase's invoice. */
  predicate CanSpawn(w: World, p: Process) {
    p.FindPurchase? || p.CheckSeen? || (p.JudgePoll? && w.Has(p.id, PENDING) && w.purchases[p.id].invoice.Some?)
  }

  function Step(w: World, e: Event): World {
    match e
    case Spawn(p) => if CanSpawn(w, p) then w.(procs := w.procs + [p]) else w
    case Advance(i, answer) =>
      if i >= |w.procs| then w
      else
        var (after, p) := Transact(w, w.procs[i], answer);
        after.(procs := w.procs[i := p])
    case Crash(i) => if i >= |w.procs| then w else w.(procs := w.procs[i := Finished])
  }

  function Run(w: World, events: seq<Event>): World
    decreases |events|
  {
    if events == [] then w else Run(Step(w, events[0]), events[1..])
  }

  function Start(users: set<int>): World {
    World(map[], users, {}, [], {}, [], [])
  }

  // ── the billing invariant ──

  /** Each purchase is granted at most once, to its own user for its own amount, and the user has access. */
  ghost predicate GrantsSound(w: World) {
    && (forall i, j :: 0 <= i < j < |w.billing| ==> w.billing[i].purchase != w.billing[j].purchase)
    && (forall g :: g in w.billing ==>
          g.purchase in w.purchases && g.user == w.purchases[g.purchase].user
            && g.amount == w.purchases[g.purchase].amount
          && g.user in w.pro)
  }

  ghost predicate PaidIsGranted(w: World) {
    forall id :: w.Has(id, PAID) ==> w.Granted(id)
  }

  /** What a process holds between transactions stays true of the tables. */
  ghost predicate ProcessSound(w: World, p: Process) {
    match p
    case Activate(id, user, amount, _) => id in w.purchases && w.purchases[id].user == user
      && w.purchases[id].amount == amount
    case WritePaid(id, _) => w.Granted(id)
    case Confirm(id) => w.Has(id, PAID)
    case _ => true
  }

  ghost predicate Valid(w: World) {
    GrantsSound(w) && PaidIsGranted(w) && forall i :: 0 <= i < |w.procs| ==> ProcessSound(w, w.procs[i])
  }

  /** Tables only grow: purchases keep their user and amount, grants are never taken back, and a closed
      purchase keeps its status for ever. */
  ghost predicate Extends(w: World, after: World) {
    && after.users == w.users && w.pro <= after.pro && w.billing <= after.billing
    && (forall id :: id in w.purchases ==>
          id in after.purchases && after.purchases[id].user == w.purchases[id].user
          && after.purchases[id].amount == w.purchases[id].amount
          && (!w.purchases[id].status.IsOpen() ==> after.purchases[id].status == w.purchases[id].status))
  }

  lemma TransactExtends(w: World, p: Process, answer: Option<string>)
    ensures Extends(w, Transact(w, p, answer).0)
  {
  }

  lemma TransactKeepsTables(w: World, p: Process, answer: Option<string>)
    requires GrantsSound(w) && PaidIsGranted(w) && ProcessSound(w, p)
    ensures var (after, q) := Transact(w, p, answer);
      GrantsSound(after) && PaidIsGranted(after) && ProcessSound(after, q)
  {
    var (after, q) := Transact(w, p, answer);
    if p.Activate? && p.user in w.users && !w.Granted(p.id) {
      assert after.billing[|w.billing|] == Grant(p.id, p.user, p.amount);
      forall id | after.Has(id, PAID) ensures after.Granted(id) {
        GrantRemains(w, after, id);
      }
    } else {
      assert after.billing == w.billing;
      forall id | after.Has(id, PAID) ensures after.Granted(id) {
        if w.Has(id, PAID) || (p.WritePaid? && p.id == id) {
          GrantRemains(w, after, id);
        }
      }
    }
  }

  lemma GrantRemains(w: World, after: World, id: Id)
    requires w.Granted(id) && w.billing <= after.billing
    ensures after.Granted(id)
  {
    var g :| g in w.billing && g.purchase == id;
    assert g in after.billing;
  }

  lemma ExtensionKeepsProcess(w: World, after: World, p: Process)
    requires Extends(w, after) && ProcessSound(w, p)
    ensures ProcessSound(after, p)
  {
    if p.WritePaid? {
      GrantRemains(w, after, p.id);
    }
  }

  lemma SameTables(w: World, after: World)
    requires GrantsSound(w) && PaidIsGranted(w)
    requires after.purchases == w.purchases && after.users == w.users && after.pro == w.pro
        && after.billing == w.billing
    ensures GrantsSound(after) && PaidIsGranted(after) && Extends(w, after)
  {
    forall id | after.Has(id, PAID) ensures after.Granted(id) {
      assert w.Has(id, PAID);
      GrantRemains(w, after, id);
    }
  }

  lemma StepKeepsValid(w: World, e: Event)
    requires Valid(w)
    ensures Valid(Step(w, e)) && Extends(w, Step(w, e))
  {
    match e {
      case Advance(i, answer) =>
        if i < |w.procs| {
          var (after, q) := Transact(w, w.procs[i], answer);
          TransactExtends(w, w.procs[i], answer);
          TransactKeepsTables(w, w.procs[i], answer);
          hide Transact;
          SameTables(after, Step(w, e));
          forall j | 0 <= j < |w.procs| ensures ProcessSound(Step(w, e), Step(w, e).procs[j]) {
            ExtensionKeepsProcess(w, after, w.procs[j]);
            ExtensionKeepsProcess(after, Step(w, e), if j == i then q else w.procs[j]);
          }
        }
      case Spawn(p) =>
        SameTables(w, Step(w, e));
        forall j | 0 <= j < |Step(w, e).procs| ensures ProcessSound(Step(w, e), Step(w, e).procs[j]) {
          if j < |w.procs| {
            ExtensionKeepsProcess(w, Step(w, e), w.procs[j]);
          }
        }
      case Crash(i) =>
        SameTables(w, Step(w, e));
        forall j | 0 <= j < |w.procs| ensures ProcessSound(Step(w, e), Step(w, e).procs[j]) {
          ExtensionKeepsProcess(w, Step(w, e), w.procs[j]);
        }
    }
  }

  lemma {:induction false} RunKeepsValid(w: World, events: seq<Event>)
    requires Valid(w)
    ensures Valid(Run(w, events)) && Extends(w, Run(w, events))
    decreases |events|
  {
    hide Valid, Step;
    if events != [] {
      StepKeepsValid(w, events[0]);
      RunKeepsValid(Step(w, events[0]), events[1..]);
    }
  }

  // ── checkouts ──

  predicate OpenFor(p: Purchase, user: int) {
    p.user == user && p.status.IsOpen()
  }

  /** Nobody has two checkouts open at once. */
  ghost predicate OneOpenEach(w: World) {
    forall a: Id, b: Id | a in w.purchases && b in w.purchases ::
      OpenFor(w.purchases[a], w.purchases[b].user) && w.purchases[b].status.IsOpen() ==> a == b
  }

  lemma StepKeepsOneOpen(w: World, e: Event)
    requires OneOpenEach(w)
    ensures OneOpenEach(Step(w, e))
  {
    if e.Advance? && e.i < |w.procs| && w.procs[e.i].FindPurchase? {
      assert Step(w, e).purchases == w.purchases || !w.HasOpen(w.procs[e.i].user);
    }
  }

  lemma {:induction false} RunKeepsOneOpen(w: World, events: seq<Event>)
    requires OneOpenEach(w)
    ensures OneOpenEach(Run(w, events))
    decreases |events|
  {
    hide OneOpenEach, Step;
    if events != [] {
      StepKeepsOneOpen(w, events[0]);
      RunKeepsOneOpen(Step(w, events[0]), events[1..]);
    }
  }

  /** Over every run a user has at most one open purchase, however often checkout is started. */
  lemma CheckoutsAreResumed(users: set<int>, events: seq<Event>)
    ensures OneOpenEach(Run(Start(users), events))
  {
    RunKeepsOneOpen(Start(users), events);
  }

  predicate Invoiced(w: World, id: Id) {
    id in w.purchases && w.purchases[id].status != CREATED
  }

  /** A purchase whose checkout went on does not go back to the start and keeps its invoice until it is paid; a paid
      one keeps its row. */
  ghost predicate KeepsRecord(w: World, after: World, id: Id)
    requires Invoiced(w, id)
  {
    && Invoiced(after, id)
    && (!after.Has(id, PAID) ==> after.purchases[id].invoice == w.purchases[id].invoice)
    && (w.Has(id, PAID) ==> after.purchases[id] == w.purchases[id])
  }

  lemma StepKeepsRecord(w: World, e: Event, id: Id)
    requires Invoiced(w, id)
    ensures KeepsRecord(w, Step(w, e), id)
  {
  }

  lemma {:induction false} RunKeepsRecord(w: World, events: seq<Event>, id: Id)
    requires Invoiced(w, id)
    ensures KeepsRecord(w, Run(w, events), id)
    decreases |events|
  {
    hide Step;
    if events != [] {
      StepKeepsRecord(w, events[0], id);
      RunKeepsRecord(Step(w, events[0]), events[1..], id);
    }
  }

  /** Lifetime revenue, as the billing table sums it. */
  function Revenue(billing: seq<Grant>): real {
    if billing == [] then 0.0 else Revenue(billing[..|billing| - 1]) + billing[|billing| - 1].amount
  }

  function AmountsOf(purchases: map<Id, Purchase>, ids: seq<Id>): real
    requires forall id :: id in ids ==> id in purchases
  {
    if ids == [] then 0.0
    else AmountsOf(purchases, ids[..|ids| - 1]) + purchases[ids[|ids| - 1]].amount
  }

  function GrantedIds(billing: seq<Grant>): (ids: seq<Id>)
    ensures |ids| == |billing| && forall i :: 0 <= i < |ids| ==> ids[i] == billing[i].purchase
  {
    if billing == [] then [] else GrantedIds(billing[..|billing| - 1]) + [billing[|billing| - 1].purchase]
  }

  lemma {:induction false} RevenueIsAmounts(purchases: map<Id, Purchase>, billing: seq<Grant>)
    requires forall g :: g in billing ==> g.purchase in purchases && g.amount == purchases[g.purchase].amount
    ensures forall id :: id in GrantedIds(billing) ==> id in purchases
    ensures Revenue(billing) == AmountsOf(purchases, GrantedIds(billing))
  {
    if billing != [] {
      var rest := billing[..|billing| - 1];
      RevenueIsAmounts(purchases, rest);
      assert GrantedIds(billing)[..|billing| - 1] == GrantedIds(rest);
    }
  }

  /** After any run: a paid purchase was granted; each purchase was granted at most once, to its user, who
      has access; and revenue is the amounts of the granted purchases, each counted once. */
  lemma EveryRunIsSettledOnce(users: set<int>, events: seq<Event>)
    ensures var w := Run(Start(users), events);
      && PaidIsGranted(w) && GrantsSound(w)
      && (forall id :: id in GrantedIds(w.billing) <==> w.Granted(id))
      && (forall id :: id in GrantedIds(w.billing) ==> id in w.purchases)
      && Revenue(w.billing) == AmountsOf(w.purchases, GrantedIds(w.billing))
  {
    RunKeepsValid(Start(users), events);
    var w := Run(Start(users), events);
    hide Run;
    RevenueIsAmounts(w.purchases, w.billing);
    forall id ensures id in GrantedIds(w.billing) <==> w.Granted(id) {
      if w.Granted(id) {
        var g :| g in w.billing && g.purchase == id;
        var i :| 0 <= i < |w.billing| && w.billing[i] == g;
        assert GrantedIds(w.billing)[i] == id;
      }
      if id in GrantedIds(w.billing) {
        var i :| 0 <= i < |w.billing| && GrantedIds(w.billing)[i] == id;
        assert w.billing[i] in w.billing;
      }
    }
  }

  /** Whatever happens between two moments, a purchase that was closed or paid keeps its status. */
  lemma TerminalStaysTerminal(users: set<int>, events: seq<Event>, more: seq<Event>, id: Id)
    requires id in Run(Start(users), events).purchases
    requires !Run(Start(users), events).purchases[id].status.IsOpen()
    ensures var w, later := Run(Start(users), events), Run(Run(Start(users), events), more);
      id in later.purchases && later.purchases[id].status == w.purchases[id].status
  {
    RunKeepsValid(Start(users), events);
    RunKeepsValid(Run(Start(users), events), more);
  }

  /** A settlement run through without interruption, whatever earlier ones were cut off after, leaves an
      open purchase paid; it adds a grant if there was none and otherwise leaves billing exactly as it was. */
  lemma UninterruptedSettles(w: World, id: Id, invoice: Option<string>)
    requires id in w.purchases && w.purchases[id].status.IsOpen() && w.purchases[id].user in w.users
    ensures var (w1, p1) := Transact(w, ReadPurchase(id, invoice), None);
      var (w2, p2) := Transact(w1, p1, None);
      var (w3, p3) := Transact(w2, p2, None);
      && w3.Has(id, PAID) && p3 == Confirm(id)
      && w3.billing == if w.Granted(id) then w.billing
        else w.billing + [Grant(id, w.purchases[id].user, w.purchases[id].amount)]
  {
  }

  // ── confirmations ──

  /** The process is on its way to a confirmation of this purchase. */
  predicate Settling(p: Process, id: Id) {
    match p
    case ReadPurchase(i, _) => i == id
    case Activate(i, _, _, _) => i == id
    case WritePaid(i, _) => i == id
    case Confirm(i) => i == id
    case _ => false
  }

  ghost predicate Solo(w: World, id: Id) {
    forall i, j :: 0 <= i < j < |w.procs| ==> !(Settling(w.procs[i], id) && Settling(w.procs[j], id))
  }

  /** Settlements of this purchase never overlap in the run. */
  ghost predicate SoloRun(w: World, events: seq<Event>, id: Id)
    decreases |events|
  {
    Solo(w, id) && (events == [] || SoloRun(Step(w, events[0]), events[1..], id))
  }

  function Count(ids: seq<Id>, id: Id): nat {
    if ids == [] then 0 else Count(ids[..|ids| - 1], id) + (if ids[|ids| - 1] == id then 1 else 0)
  }

  ghost predicate ConfirmedAtMostOnce(w: World, id: Id) {
    && (Count(w.confirmed, id) == 0 || (Count(w.confirmed, id) == 1 && w.Has(id, PAID)))
    && (forall i :: 0 <= i < |w.procs| && Settling(w.procs[i], id) ==>
          Count(w.confirmed, id) == 0 && (w.procs[i].Confirm? <==> w.Has(id, PAID)))
  }

  lemma CountAppend(ids: seq<Id>, last: Id, id: Id)
    ensures Count(ids + [last], id) == Count(ids, id) + (if last == id then 1 else 0)
  {
    assert (ids + [last])[..|ids|] == ids;
  }

  lemma StepKeepsConfirmations(w: World, e: Event, id: Id)
    requires Solo(w, id) && ConfirmedAtMostOnce(w, id)
    ensures ConfirmedAtMostOnce(Step(w, e), id)
  {
    hide Count;
    if e.Advance? && e.i < |w.procs| {
      var p := w.procs[e.i];
      if p.Confirm? {
        CountAppend(w.confirmed, p.id, id);
      } else if !Settling(p, id) {
        BystanderStep(w, p, e.answer, id);
      }
    }
  }

  /** A process not settling the purchase neither pays nor confirms it; it may only begin to settle it, and
      then sees it unpaid. */
  lemma BystanderStep(w: World, p: Process, answer: Option<string>, id: Id)
    requires !Settling(p, id) && !p.Confirm?
    ensures var (after, q) := Transact(w, p, answer);
      && (after.Has(id, PAID) <==> w.Has(id, PAID)) && after.confirmed == w.confirmed
      && (Settling(q, id) ==> !q.Confirm? && !w.Has(id, PAID))
  {
  }

  /** As long as settlements of a purchase do not overlap, it is confirmed to its buyer at most once, and
      only when paid. */
  lemma {:induction false} SoloRunsConfirmOnce(w: World, events: seq<Event>, id: Id)
    requires SoloRun(w, events, id) && ConfirmedAtMostOnce(w, id)
    ensures ConfirmedAtMostOnce(Run(w, events), id)
    decreases |events|
  {
    hide ConfirmedAtMostOnce, Step, Solo;
    if events != [] {
      StepKeepsConfirmations(w, events[0], id);
      SoloRunsConfirmOnce(Step(w, events[0]), events[1..], id);
    }
  }

  /** From an empty start: never more than one confirmation, and none before the purchase is paid. */
  lemma SoloRunsConfirmOnceFromStart(users: set<int>, events: seq<Event>, id: Id)
    requires SoloRun(Start(users), events, id)
    ensures var w := Run(Start(users), events);
      Count(w.confirmed, id) <= 1 && (Count(w.confirmed, id) == 1 ==> w.Has(id, PAID))
  {
    SoloRunsConfirmOnce(Start(users), events, id);
  }

  // ── when settlements overlap ──

  /** Nothing happens but that processes already settling the purchase go on. */
  predicate OnlySettlers(w: World, events: seq<Event>, id: Id) {
    forall k :: 0 <= k < |events| ==>
      events[k].Advance? && events[k].i < |w.procs| && Settling(w.procs[events[k].i], id)
  }

  /** How far a settlement is from its end. */
  function StepsLeft(p: Process): nat {
    match p
    case ReadPurchase(_, _) => 4
    case Activate(_, _, _, _) => 3
    case WritePaid(_, _) => 2
    case Confirm(_) => 1
    case _ => 0
  }

  /** The purchase can still be paid, or has been; its buyer has an account. */
  ghost predicate Payable(w: World, id: Id) {
    Valid(w) && id in w.purchases && w.purchases[id].user in w.users
    && (w.purchases[id].status.IsOpen() || w.purchases[id].status == PAID)
  }

  lemma RunTwice(w: World, first: seq<Event>, second: seq<Event>)
    ensures Run(w, first + second) == Run(Run(w, first), second)
    decreases |first|
  {
    hide Step;
    if first == [] {
      assert first + second == second;
    } else {
      assert (first + second)[1..] == first[1..] + second;
      RunTwice(Step(w, first[0]), first[1..], second);
    }
  }

  /** One transaction brings a settlement of a payable purchase nearer its confirmation. */
  lemma SettlerAdvances(w: World, i: nat, id: Id)
    requires Payable(w, id) && i < |w.procs| && Settling(w.procs[i], id)
    ensures var after := Step(w, Advance(i, None));
      && Payable(after, id) && |after.procs| == |w.procs| && StepsLeft(after.procs[i]) < StepsLeft(w.procs[i])
      && (forall j :: 0 <= j < |w.procs| && j != i ==> after.procs[j] == w.procs[j])
      && (if w.procs[i].Confirm? then after.procs[i] == Finished && after.confirmed == w.confirmed + [id]
          else Settling(after.procs[i], id) && after.confirmed == w.confirmed)
      && (w.procs[i].Confirm? ==> after.Has(id, PAID))
  {
    StepKeepsValid(w, Advance(i, None));
    assert ProcessSound(w, w.procs[i]);
    hide Valid, World.Granted, Extends;
    if w.procs[i].WritePaid? && w.purchases[id].status.IsOpen() {
      OpenCanBePaid(w.purchases[id].status);
    }
  }

  /** Left to run, such a settlement confirms the purchase. */
  lemma {:induction false} SettlerConfirms(w: World, i: nat, id: Id) returns (events: seq<Event>)
    requires Payable(w, id) && i < |w.procs| && Settling(w.procs[i], id)
    ensures forall k :: 0 <= k < |events| ==> events[k] == Advance(i, None)
    ensures var after := Run(w, events);
      && Payable(after, id) && after.procs == w.procs[i := Finished] && after.confirmed == w.confirmed + [id]
      && after.Has(id, PAID)
    decreases StepsLeft(w.procs[i])
  {
    hide Payable, Transact;
    var e := Advance(i, None);
    var next := Step(w, e);
    SettlerAdvances(w, i, id);
    if w.procs[i].Confirm? {
      events := [e];
      assert [e][1..] == [] && Run(next, []) == next;
    } else {
      var rest := SettlerConfirms(next, i, id);
      events := [e] + rest;
      assert events[1..] == rest;
      assert next.procs[i := Finished] == w.procs[i := Finished];
    }
  }

  /** One settlement confirms at most once: confirmations and settlements left never exceed one. */
  lemma {:induction false} LoneSettlerConfirmsOnce(w: World, events: seq<Event>, id: Id, i: nat)
    requires i < |w.procs| && Count(w.confirmed, id) + (if Settling(w.procs[i], id) then 1 else 0) <= 1
    requires w.procs[i].Confirm? ==> w.procs[i].id == id
    requires Settling(w.procs[i], id) || w.procs[i].Finished? || w.procs[i].CloseFailed?
    requires forall k :: 0 <= k < |events| ==> events[k].Advance? && events[k].i == i
    ensures Count(Run(w, events).confirmed, id) <= 1
    decreases |events|
  {
    hide Count;
    if events != [] {
      var p := w.procs[i];
      var next := Step(w, events[0]);
      if p.Confirm? {
        CountAppend(w.confirmed, id, id);
      }
      hide Step;
      LoneSettlerConfirmsOnce(next, events[1..], id, i);
    }
  }

  /** Exactly: of a payable purchase not confirmed yet, with nothing more coming in, settlements under way can
      confirm it twice if and only if there are two of them. */
  lemma ConfirmedTwiceIff(w: World, id: Id)
    requires Payable(w, id) && Count(w.confirmed, id) == 0
    ensures (exists events: seq<Event> :: OnlySettlers(w, events, id) && Count(Run(w, events).confirmed, id) >= 2)
            <==> !Solo(w, id)
  {
    if !Solo(w, id) {
      BothConfirm(w, id);
    } else {
      forall events: seq<Event> | OnlySettlers(w, events, id)
        ensures Count(Run(w, events).confirmed, id) <= 1
      {
        if events != [] {
          var i := events[0].i;
          forall k | 0 <= k < |events| ensures events[k].i == i {
            assert Settling(w.procs[events[k].i], id) && Settling(w.procs[i], id);
          }
          LoneSettlerConfirmsOnce(w, events, id, i);
        }
      }
    }
  }

  lemma BothConfirm(w: World, id: Id)
    requires Payable(w, id) && !Solo(w, id)
    ensures exists events: seq<Event> :: OnlySettlers(w, events, id) && Count(Run(w, events).confirmed, id) >= 2
  {
    hide Payable, Step, Count;
    var i, j :| 0 <= i < j < |w.procs| && Settling(w.procs[i], id) && Settling(w.procs[j], id);
    var first := SettlerConfirms(w, i, id);
    var middle := Run(w, first);
    var second := SettlerConfirms(middle, j, id);
    RunTwice(w, first, second);
    assert OnlySettlers(w, first + second, id);
    CountAppend(w.confirmed, id, id);
    CountAppend(middle.confirmed, id, id);
  }

  // ── what is not guaranteed ──

  ghost predicate Reachable(users: set<int>, w: World) {
    exists events :: Run(Start(users), events) == w
  }

  lemma {:induction false} RunThen(w: World, events: seq<Event>, e: Event)
    ensures Run(w, events + [e]) == Step(Run(w, events), e)
    decreases |events|
  {
    hide Step;
    if events == [] {
      assert [e][1..] == [] && Run(Step(w, e), []) == Step(w, e);
    } else {
      assert (events + [e])[1..] == events[1..] + [e];
      RunThen(Step(w, events[0]), events[1..], e);
    }
  }

  lemma Next(users: set<int>, w: World, e: Event) returns (after: World)
    requires Reachable(users, w)
    ensures Reachable(users, after) && after == Step(w, e)
  {
    hide Step;
    var events :| Run(Start(users), events) == w;
    RunThen(Start(users), events, e);
    after := Step(w, e);
  }

  /** A purchase with its invoice issued. */
  lemma PendingPurchase(user: int, amount: real, id: Id, invoice: string) returns (w: World)
    ensures Reachable({user}, w)
    ensures w == World(map[id := Purchase(user, amount, PENDING, Some(invoice))], {user}, {}, [], {}, [], [Finished])
  {
    var users := {user};
    w := Start(users);
    assert Run(w, []) == w;
    hide Reachable, Run;
    w := Next(users, w, Spawn(FindPurchase(user, amount, id)));
    w := Next(users, w, Advance(0, None));
    assert w.procs == [RequestInvoice(id)];
    w := Next(users, w, Advance(0, Some(invoice)));
    w := Next(users, w, Advance(0, None));
  }

  function PaidUpdate(updateId: int, id: Id, invoice: string): Update {
    Update(true, Some(updateId), true, Some(id), true, Some(invoice))
  }

  /** Two transactions of the process at the end. */
  lemma Deliver(user: int, w: World, u: Update, id: Id) returns (after: World)
    requires Reachable({user}, w) && u.updateId.Some? && u.updateId.value !in w.seen
    requires u.valid && u.reportsPaid && u.purchase == Some(id) && u.amountMatches && id in w.purchases
        && !w.Has(id, PAID)
    ensures Reachable({user}, after)
    ensures after == w.(seen := w.seen + {u.updateId.value}, procs := w.procs + [ReadPurchase(id, u.invoice)])
  {
    hide Reachable;
    var n := |w.procs|;
    after := Next({user}, w, Spawn(CheckSeen(u)));
    after := Next({user}, after, Advance(n, None));
    assert after == w.(procs := w.procs + [RecordEvent(u)]);
    after := Next({user}, after, Advance(n, None));
    assert after == w.(seen := w.seen + {u.updateId.value}, procs := w.procs + [JudgeUpdate(u)]);
    after := Next({user}, after, Advance(n, None));
  }

  /** Granted does not mean paid: the purchase can be closed between its grant and the write of PAID. */
  lemma GrantedThenExpired(user: int, amount: real, id: Id, invoice: string) returns (w: World)
    ensures Reachable({user}, w) && w.Granted(id) && w.Has(id, EXPIRED)
    ensures forall p :: p in w.procs ==> p == Finished
  {
    hide Reachable;
    w := PendingPurchase(user, amount, id, invoice);
    w := Next({user}, w, Spawn(JudgePoll(id, false)));
    w := Deliver(user, w, PaidUpdate(1, id, invoice), id);
    assert w.procs == [Finished, JudgePoll(id, false), ReadPurchase(id, Some(invoice))];
    w := Next({user}, w, Advance(2, None));
    w := Next({user}, w, Advance(2, None));
    assert w.procs == [Finished, JudgePoll(id, false), WritePaid(id, Some(invoice))]
        && w.billing == [Grant(id, user, amount)];
    w := Next({user}, w, Advance(1, None));
    w := Next({user}, w, Advance(2, None));
    assert w.procs == [Finished, Finished, Finished] && w.billing[0].purchase == id;
  }

  /** A callback and a reconciliation of the same payment can both confirm it to the buyer. */
  lemma ConfirmedTwice(user: int, amount: real, id: Id, invoice: string) returns (w: World)
    ensures Reachable({user}, w) && w.confirmed == [id, id] && w.billing == [Grant(id, user, amount)]
  {
    hide Reachable;
    w := PendingPurchase(user, amount, id, invoice);
    w := Next({user}, w, Spawn(JudgePoll(id, true)));
    w := Next({user}, w, Advance(1, None));
    w := Deliver(user, w, PaidUpdate(1, id, invoice), id);
    assert w.procs == [Finished, ReadPurchase(id, Some(invoice)), ReadPurchase(id, Some(invoice))];
    w := Next({user}, w, Advance(1, None));
    w := Next({user}, w, Advance(1, None));
    assert w.procs == [Finished, WritePaid(id, Some(invoice)), ReadPurchase(id, Some(invoice))];
    w := Next({user}, w, Advance(1, None));
    w := Next({user}, w, Advance(1, None));
    assert w.Has(id, PAID) && w.confirmed == [id] && w.procs == [Finished, Finished, ReadPurchase(id, Some(invoice))];
    w := Next({user}, w, Advance(2, None));
    w := Next({user}, w, Advance(2, None));
  }

  /** Resuming an open checkout issues a second invoice that is not recorded: once the first one expires
      the purchase is closed, and a verified payment of the second grants nothing. */
  lemma SecondInvoiceIsLost(user: int, amount: real, id: Id, first: string, second: string) returns (w: World)
    ensures Reachable({user}, w) && w.seen == {1} && w.Has(id, EXPIRED) && w.billing == []
    ensures w.purchases[id].invoice == Some(first)
    ensures forall p :: p in w.procs ==> p == Finished
  {
    hide Reachable;
    w := PendingPurchase(user, amount, id, first);
    w := Next({user}, w, Spawn(FindPurchase(user, amount, id)));
    w := Next({user}, w, Advance(1, Some(id)));
    w := Next({user}, w, Advance(1, Some(second)));
    assert w.procs == [Finished, RecordInvoice(id, second)];
    w := Next({user}, w, Advance(1, None));
    w := Next({user}, w, Spawn(JudgePoll(id, false)));
    w := Next({user}, w, Advance(2, None));
    assert w.procs == [Finished, Finished, Finished] && w.Has(id, EXPIRED);
    w := Deliver(user, w, PaidUpdate(1, id, second), id);
    w := Next({user}, w, Advance(3, None));
    assert w.procs == [Finished, Finished, Finished, Finished];
  }

  /** A callback whose handling is cut off after it was recorded is ignored when delivered again; the
      purchase stays pending until reconciliation. */
  lemma RedeliveryIsDropped(user: int, amount: real, id: Id, invoice: string) returns (w: World)
    ensures Reachable({user}, w) && w.Has(id, PENDING) && w.billing == [] && w.seen == {1}
    ensures forall p :: p in w.procs ==> p == Finished
    ensures var redelivered := Step(w, Spawn(CheckSeen(PaidUpdate(1, id, invoice))));
      Step(redelivered, Advance(|w.procs|, None)) == w.(procs := w.procs + [Finished])
  {
    hide Reachable;
    w := PendingPurchase(user, amount, id, invoice);
    w := Deliver(user, w, PaidUpdate(1, id, invoice), id);
    w := Next({user}, w, Crash(1));
  }

  /** Nor is it enough that nothing closes a purchase after its grant: a settlement that read it open grants it
      even when it has been closed since. */
  lemma ClosedThenGranted(user: int, amount: real, id: Id, invoice: string) returns (closed: World, w: World)
    ensures Reachable({user}, closed) && closed.Has(id, EXPIRED) && !closed.Granted(id)
    ensures w == Step(closed, Advance(2, None)) && w.Has(id, EXPIRED) && w.Granted(id)
  {
    hide Reachable;
    closed := PendingPurchase(user, amount, id, invoice);
    closed := Next({user}, closed, Spawn(JudgePoll(id, false)));
    closed := Deliver(user, closed, PaidUpdate(1, id, invoice), id);
    closed := Next({user}, closed, Advance(2, None));
    closed := Next({user}, closed, Advance(1, None));
    assert closed.procs == [Finished, Finished, Activate(id, user, amount, Some(invoice))];
    w := Step(closed, Advance(2, None));
    assert w.billing == [Grant(id, user, amount)];
    assert w.billing[0].purchase == id;
  }

  // ── which closed purchases can still be granted ──

  /** A settlement has read the purchase open and not yet granted it. */
  predicate AboutToGrant(p: Process, id: Id) {
    p.Activate? && p.id == id
  }

  /** The purchase is closed for good: unpaid, not granted, and no settlement is about to grant it. */
  ghost predicate ClosedClean(w: World, id: Id) {
    && id in w.purchases && !w.purchases[id].status.IsOpen() && w.purchases[id].status != PAID && !w.Granted(id)
    && forall i :: 0 <= i < |w.procs| ==> !AboutToGrant(w.procs[i], id)
  }

  lemma TransactKeepsClean(w: World, p: Process, answer: Option<string>, id: Id)
    requires id in w.purchases && !w.purchases[id].status.IsOpen() && w.purchases[id].status != PAID && !w.Granted(id)
    requires !AboutToGrant(p, id)
    ensures var (after, q) := Transact(w, p, answer);
      && id in after.purchases && after.purchases[id].status == w.purchases[id].status
      && !after.Granted(id) && !AboutToGrant(q, id)
  {
    var (after, q) := Transact(w, p, answer);
    forall g | g in after.billing ensures g.purchase != id {
      assert g in w.billing || g == after.billing[|w.billing|];
    }
  }

  /** Whatever happens next, a purchase closed while no settlement is about to grant it is never granted. */
  lemma {:induction false} CleanCloseIsFinal(w: World, events: seq<Event>, id: Id)
    requires ClosedClean(w, id)
    ensures ClosedClean(Run(w, events), id)
    decreases |events|
  {
    if events != [] {
      var e := events[0];
      if e.Advance? && e.i < |w.procs| {
        TransactKeepsClean(w, w.procs[e.i], e.answer, id);
        hide Transact;
        assert !Step(w, e).Granted(id);
        assert ClosedClean(Step(w, e), id);
      } else {
        assert Step(w, e).billing == w.billing && !Step(w, e).Granted(id);
        assert ClosedClean(Step(w, e), id);
      }
      hide Step, ClosedClean;
      CleanCloseIsFinal(Step(w, e), events[1..], id);
    }
  }

  /** So a closed, unpaid, ungranted purchase can still come to be granted exactly when a settlement is about to
      grant it to a user who exists. */
  lemma ClosedCanBeGrantedIff(w: World, id: Id)
    requires Valid(w) && id in w.purchases && !w.purchases[id].status.IsOpen() && w.purchases[id].status != PAID
    requires !w.Granted(id) && w.purchases[id].user in w.users
    ensures (exists events :: Run(w, events).Granted(id))
            <==> exists i :: 0 <= i < |w.procs| && AboutToGrant(w.procs[i], id)
  {
    if i :| 0 <= i < |w.procs| && AboutToGrant(w.procs[i], id) {
      GrantCompletes(w, i, id);
    } else {
      forall events ensures !Run(w, events).Granted(id) {
        CleanCloseIsFinal(w, events, id);
      }
    }
  }

  lemma GrantCompletes(w: World, i: nat, id: Id)
    requires Valid(w) && i < |w.procs| && AboutToGrant(w.procs[i], id) && id in w.purchases
    requires !w.Granted(id) && w.purchases[id].user in w.users
    ensures exists events :: Run(w, events).Granted(id)
  {
    var e := Advance(i, None);
    var after := Step(w, e);
    assert ProcessSound(w, w.procs[i]);
    assert after.billing[|w.billing|].purchase == id;
    assert [e][1..] == [] && Run(after, []) == after;
    assert Run(w, [e]) == after;
  }

  /** No step of the run closes the purchase. */
  ghost predicate NeverCloses(w: World, events: seq<Event>, id: Id)
    decreases |events|
  {
    events == [] ||
    ((!OpenOrPaid(Step(w, events[0]), id) ==> !OpenOrPaid(w, id)) && NeverCloses(Step(w, events[0]), events[1..], id))
  }

  predicate OpenOrPaid(w: World, id: Id) {
    id !in w.purchases || w.purchases[id].status.IsOpen() || w.purchases[id].status == PAID
  }

  /** A purchase no step of a run closes is, once granted, paid or still open to be: and then any settlement run
      through completes it. */
  lemma GrantedAndNeverClosed(users: set<int>, events: seq<Event>, id: Id, invoice: Option<string>)
    requires var w := Run(Start(users), events); w.Granted(id) && id in w.purchases && w.purchases[id].user in users
    requires NeverCloses(Start(users), events, id)
    ensures var w := Run(Start(users), events);
      w.Has(id, PAID) || (w.purchases[id].status.IsOpen() && Alone(w, ReadPurchase(id, invoice), 3).0.Has(id, PAID)
                          && Alone(w, ReadPurchase(id, invoice), 3).0.billing == w.billing)
  {
    hide Transact;
    StaysOpenOrPaid(Start(users), events, id);
    RunKeepsValid(Start(users), events);
    var w := Run(Start(users), events);
    hide Run;
    SettlementAlone(w, id, invoice);
  }

  lemma {:induction false} StaysOpenOrPaid(w: World, events: seq<Event>, id: Id)
    requires OpenOrPaid(w, id) && NeverCloses(w, events, id)
    ensures OpenOrPaid(Run(w, events), id)
    decreases |events|
  {
    hide Step;
    if events != [] {
      StaysOpenOrPaid(Step(w, events[0]), events[1..], id);
    }
  }

  // ── one process at a time ──

  /** A process run on its own until it finishes or is about to confirm. */
  function Alone(w: World, p: Process, n: nat): (World, Process)
    decreases n
  {
    if n == 0 || p.Confirm? || p.Finished? then (w, p)
    else
      var (after, q) := Transact(w, p, None);
      Alone(after, q, n - 1)
  }

  /** A settlement left alone, as one case distinction. */
  lemma SettlementAlone(w: World, id: Id, invoice: Option<string>)
    ensures Alone(w, ReadPurchase(id, invoice), 3) ==
      if id !in w.purchases then (w, Finished)
      else
        var row := w.purchases[id];
        if row.status == PAID then (w, Confirm(id))
        else if !row.status.IsOpen() then (w, Finished)
        else if row.user !in w.users then (Closed(w, id, FAILED), Finished)
        else
          var g := if w.Granted(id) then w
                   else w.(pro := w.pro + {row.user}, billing := w.billing + [Grant(id, row.user, row.amount)]);
          var paid := row.(status := PAID, invoice := if invoice.Some? then invoice else row.invoice);
          (g.(purchases := w.purchases[id := paid]), Confirm(id))
  {
    hide World.Granted;
    if id in w.purchases && w.purchases[id].status.IsOpen() {
      var (w1, p1) := Transact(w, ReadPurchase(id, invoice), None);
      var (w2, p2) := Transact(w1, p1, None);
      OpenCanBePaid(w.purchases[id].status);
      assert w2.purchases == w.purchases;
      assert Alone(w1, p1, 2) == Alone(w2, p2, 1);
    }
  }

  function WithSeen(w: World, u: Update): World {
    if u.updateId.Some? then w.(seen := w.seen + {u.updateId.value}) else w
  }

  /** The handler's guards in front of a settlement. */
  lemma GuardsThenSettle(w: World, u: Update)
    ensures Alone(w, CheckSeen(u), 6) ==
      if u.updateId.Some? && u.updateId.value in w.seen then (w, Finished)
      else if !u.valid || !u.reportsPaid || u.purchase.None? || u.purchase.value !in w.purchases
              || !u.amountMatches || w.Has(u.purchase.value, PAID) then (WithSeen(w, u), Finished)
      else Alone(WithSeen(w, u), ReadPurchase(u.purchase.value, u.invoice), 3)
  {
    var (w1, p1) := Transact(w, CheckSeen(u), None);
    if p1 == RecordEvent(u) {
      var (w2, p2) := Transact(w, RecordEvent(u), None);
      if p2 == JudgeUpdate(u) {
        var (w3, p3) := Transact(w2, JudgeUpdate(u), None);
        assert Alone(w2, JudgeUpdate(u), 4) == Alone(w3, p3, 3);
      }
      assert Alone(w, RecordEvent(u), 5) == Alone(w2, p2, 4);
    }
  }

  // ── callback identifiers ──

  /** Process i is about to record the callback, whose identifier nobody has recorded. */
  predicate Records(w: World, e: Event, updateId: int) {
    e.Advance? && e.i < |w.procs| && w.procs[e.i].RecordEvent? && w.procs[e.i].u.updateId == Some(updateId)
  }

  ghost predicate RecordedIn(w: World, events: seq<Event>, updateId: int)
    decreases |events|
  {
    events != [] && (Records(w, events[0], updateId) || RecordedIn(Step(w, events[0]), events[1..], updateId))
  }

  /** An identifier counts as seen exactly when some callback bearing it was recorded, signed or not. */
  lemma {:induction false} SeenIffRecorded(w: World, events: seq<Event>, updateId: int)
    ensures updateId in Run(w, events).seen <==> updateId in w.seen || RecordedIn(w, events, updateId)
    decreases |events|
  {
    if events != [] {
      RecordStep(w, events[0], updateId);
      hide Step, Records;
      SeenIffRecorded(Step(w, events[0]), events[1..], updateId);
    }
  }

  lemma RecordStep(w: World, e: Event, updateId: int)
    ensures updateId in Step(w, e).seen <==> updateId in w.seen || Records(w, e, updateId)
  {
  }

  /** A callback handled alone is judged at all only if nobody recorded its identifier before: otherwise, and
      whatever it says, it changes nothing. */
  lemma JudgedOnlyIfUnseen(w: World, u: Update)
    ensures u.updateId.Some? && u.updateId.value in w.seen ==> Alone(w, CheckSeen(u), 6) == (w, Finished)
    ensures !(u.updateId.Some? && u.updateId.value in w.seen) ==>
      Alone(w, CheckSeen(u), 6) == Alone(WithSeen(w, u), JudgeUpdate(u), 4)
  {
    GuardsThenSettle(w, u);
    if !(u.updateId.Some? && u.updateId.value in w.seen) {
      assert Transact(w, CheckSeen(u), None) == (w, RecordEvent(u));
      assert Transact(w, RecordEvent(u), None) == (WithSeen(w, u), JudgeUpdate(u));
      hide Transact;
      assert Alone(w, RecordEvent(u), 5) == Alone(WithSeen(w, u), JudgeUpdate(u), 4);
    }
  }

  /** So an unsigned callback, though refused, uses up its identifier: a signed one that bears it is taken for a
      duplicate, and the payment it reports settles nothing. */
  lemma UnsignedUsesUpIdentifier(w: World, unsigned: Update, signed: Update)
    requires !unsigned.valid && unsigned.updateId.Some? && signed.updateId == unsigned.updateId
    ensures var (after, p) := Alone(w, CheckSeen(unsigned), 6);
      && p == Finished && after == WithSeen(w, unsigned)
      && Alone(after, CheckSeen(signed), 6) == (after, Finished)
  {
    GuardsThenSettle(w, unsigned);
    hide Alone;
    JudgedOnlyIfUnseen(WithSeen(w, unsigned), signed);
  }

  datatype Reply =
    | Activated | Duplicate | InvalidSignature | Ignored | UnknownPurchase | AmountMismatch | AlreadyPaid | Raised

  /** The services, uninterrupted, over the tables. */
  class PurchaseTables {
    var purchases: map<Id, Purchase>
    var users: set<int>
    var pro: set<int>
    var billing: seq<Grant>
    var seen: set<int>
    var confirmed: seq<Id>

    function View(): World
      reads this
    {
      World(purchases, users, pro, billing, seen, confirmed, [])
    }

    constructor (users: set<int>)
      ensures View() == Start(users)
    {
      this.users := users;
      purchases, pro, billing, seen, confirmed := map[], {}, [], {}, [];
    }

    method Close(id: Id, status: Status) returns (raised: bool)
      requires id in purchases
      modifies this`purchases
      ensures View() == Closed(old(View()), id, status)
      ensures raised <==> old(purchases[id].status) != status && !CanTransition(old(purchases[id].status), status)
    {
      var row := purchases[id];
      if row.status == status {
        return false;
      }
      if !CanTransition(row.status, status) {
        return true;
      }
      purchases := purchases[id := row.(status := status)];
      return false;
    }

    /** Grants lifetime access once per purchase; false when there is no such user. */
    method ActivateLifetime(user: int, amount: real, id: Id) returns (found: bool)
      modifies this`pro, this`billing
      ensures found <==> user in users
      ensures !found || old(View().Granted(id)) ==> pro == old(pro) && billing == old(billing)
      ensures found && !old(View().Granted(id)) ==>
        pro == old(pro) + {user} && billing == old(billing) + [Grant(id, user, amount)]
    {
      if user !in users {
        return false;
      }
      if View().Granted(id) {
        return true;
      }
      pro := pro + {user};
      billing := billing + [Grant(id, user, amount)];
      return true;
    }

    method MarkPaid(id: Id, invoice: Option<string>) returns (paid: bool, raised: bool)
      modifies this`purchases, this`pro, this`billing
      ensures (View(), if paid then Confirm(id) else Finished) == Alone(old(View()), ReadPurchase(id, invoice), 3)
      ensures paid ==> View().Has(id, PAID) && id in old(purchases)
      ensures !paid && !raised && id in old(purchases) ==> View().Has(id, FAILED)
      ensures raised ==> View() == old(View())
      ensures billing == old(billing)
              || (paid && billing == old(billing) + [Grant(id, old(purchases)[id].user, old(purchases)[id].amount)])
      ensures Extends(old(View()), View())
    {
      SettlementAlone(View(), id, invoice);
      hide Alone, CanTransition, World.Granted;
      if id !in purchases {
        return false, false;
      }
      var row := purchases[id];
      if row.status == PAID {
        return true, false;
      }
      if !row.status.IsOpen() {
        return false, true;
      }
      var found := ActivateLifetime(row.user, row.amount, id);
      if !found {
        raised := Close(id, FAILED);
        return false, raised;
      }
      OpenCanBePaid(row.status);
      purchases := purchases[id := row.(status := PAID, invoice := if invoice.Some? then invoice else row.invoice)];
      return true, false;
    }

    /** The callback handler, guard by guard. "Activated" is also the answer when the buyer's account is gone
        and the purchase has been closed as failed. */
    method Handle(u: Update) returns (reply: Reply)
      modifies this
      ensures var (w, p) := Alone(old(View()), CheckSeen(u), 6);
        View() == if p.Confirm? then w.(confirmed := w.confirmed + [p.id]) else w
      ensures reply == Duplicate <==> u.valid && u.updateId.Some? && u.updateId.value in old(seen)
      ensures reply in {InvalidSignature, UnknownPurchase, AmountMismatch, AlreadyPaid} ==>
        purchases == old(purchases) && billing == old(billing) && confirmed == old(confirmed)
      ensures reply == Activated ==>
        u.valid && u.reportsPaid && u.amountMatches && u.purchase.Some? && u.purchase.value in old(purchases)
        && (View().Has(u.purchase.value, PAID) || View().Has(u.purchase.value, FAILED))
      ensures Extends(old(View()), View())
      ensures billing != old(billing) ==>
        reply == Activated && u.purchase.value in old(purchases)
        && billing == old(billing)
          + [Grant(u.purchase.value, old(purchases)[u.purchase.value].user, old(purchases)[u.purchase.value].amount)]
    {
      GuardsThenSettle(View(), u);
      hide Alone;
      if u.valid && u.updateId.Some? && u.updateId.value in seen {
        return Duplicate;
      }
      if u.updateId.Some? {
        if u.updateId.value in seen {
          return Raised;
        }
        seen := seen + {u.updateId.value};
      }
      if !u.valid {
        return InvalidSignature;
      }
      if !u.reportsPaid {
        return Ignored;
      }
      if u.purchase.None? || u.purchase.value !in purchases {
        return UnknownPurchase;
      }
      var id := u.purchase.value;
      if !u.amountMatches {
        return AmountMismatch;
      }
      if purchases[id].status == PAID {
        return AlreadyPaid;
      }
      var paid, raised := MarkPaid(id, u.invoice);
      if raised {
        return Ignored;
      }
      if paid {
        confirmed := confirmed + [id];
      }
      return Activated;
    }
  }

  lemma OpenCanBePaid(status: Status)
    requires status.IsOpen()
    ensures CanTransition(status, PAID) && CanTransition(status, FAILED)
  {
  }
}
