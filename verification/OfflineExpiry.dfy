/** Venue outages against the active set (src/scanner/engine.py:715-726 with the lifecycle manager, the
    health registry and the validator): force-expiry runs as background tasks over a snapshot while
    admissions go on. One step per stretch of code between two suspension points. */
module OfflineExpiry {
  import opened Prelude
  import opened Market
  import opened Signals
  import opened Config
  import opened Assembler
  import opened Validator
  import opened Health

  /** A route's key touches a venue exactly when its signal buys or sells there. */
  lemma KeyTouchesItsVenues(s: Signal, venue: string)
    ensures s.DedupKey().Touches(venue) <==> venue == s.buyExchange || venue == s.sellExchange
  {
  }

  /** A force-expire task: created, or walking the keys it listed when it started. */
  datatype Task = Created(venue: string) | Walking(venue: string, left: seq<RouteKey>)

  datatype System = System(active: set<RouteKey>, health: map<string, VenueHealth>, tasks: seq<Task>) {
    function HealthOf(venue: string): VenueHealth {
      if venue in health then health[venue] else UNSEEN
    }

    predicate Allowed(venue: string) {
      HealthOf(venue).status.SignalAllowed()
    }

    predicate BothAllowed(key: RouteKey) {
      Allowed(key.venues.0) && Allowed(key.venues.1)
    }
  }

  const IDLE := System({}, map[], [])

  datatype Event =
    /** The final gates read both statuses and the signal is taken up without suspending in between. */
    | Admission(key: RouteKey)
    /** A health event at a venue; leaving the allowed statuses creates a task at once. */
    | VenueEvent(venue: string, e: Health.Event)
    /** Task i runs for the first time and lists the active set in some order. */
    | Begin(i: nat, listing: seq<RouteKey>)
    /** Task i takes its next key, expiring it if it touches the venue, or finishes. */
    | Visit(i: nat)
    /** Any other expiry: time-to-live, collapse of the spread, delisting. */
    | Removal(key: RouteKey)

  predicate IsListing(listing: seq<RouteKey>, active: set<RouteKey>) {
    (forall k :: k in listing ==> k in active) && (forall k :: k in active ==> k in listing)
  }

  function Without(tasks: seq<Task>, i: nat): seq<Task>
    requires i < |tasks|
  {
    tasks[..i] + tasks[i + 1..]
  }

  /** An event that is not possible in a state leaves it as it is. */
  function Step(cfg: HealthConfig, s: System, e: Event): System {
    match e
    case Admission(key) => if s.BothAllowed(key) then s.(active := s.active + {key}) else s
    case VenueEvent(venue, he) =>
      var was, h := s.HealthOf(venue), Health.Step(cfg, s.HealthOf(venue), he);
      s.(health := s.health[venue := h],
         tasks := if h.status != was.status && !h.status.SignalAllowed() then s.tasks + [Created(venue)] else s.tasks)
    case Begin(i, listing) =>
      if i < |s.tasks| && s.tasks[i].Created? && IsListing(listing, s.active)
      then s.(tasks := s.tasks[i := Walking(s.tasks[i].venue, listing)]) else s
    case Visit(i) =>
      if i < |s.tasks| && s.tasks[i].Walking? then
        var t := s.tasks[i];
        if t.left == [] then s.(tasks := Without(s.tasks, i))
        else
          s.(active := if t.left[0].Touches(t.venue) then s.active - {t.left[0]} else s.active,
             tasks := s.tasks[i := Walking(t.venue, t.left[1..])])
      else s
    case Removal(key) => s.(active := s.active - {key})
  }

  function Run(cfg: HealthConfig, s: System, events: seq<Event>): System
    decreases |events|
  {
    if events == [] then s else Run(cfg, Step(cfg, s, events[0]), events[1..])
  }

  /** The task will still come to this key because of this venue. */
  predicate WillVisit(t: Task, venue: string, key: RouteKey) {
    t.venue == venue && (t.Created? || key in t.left)
  }

  ghost predicate Pending(tasks: seq<Task>, venue: string, key: RouteKey) {
    exists i :: 0 <= i < |tasks| && WillVisit(tasks[i], venue, key)
  }

  /** An active route touching a venue that may not signal will still be visited by a task for it. */
  ghost predicate CoveredAt(s: System, venue: string, key: RouteKey) {
    key in s.active && key.Touches(venue) && !s.Allowed(venue) ==> Pending(s.tasks, venue, key)
  }

  /** What the pipeline publishes from the statuses the registry shows is taken up: the admission step's
      condition on both venues is one of the gates the signal has passed, and its key touches just the
      venues it buys and sells at. */
  lemma PublishedIsAdmitted(cfg: ScannerConfig, env: Environment, cand: Candidate, buyBook: Option<OrderBook>,
                            sellBook: Option<OrderBook>, healthCfg: HealthConfig, s: System, net: real,
                            ranking: RankingLevel, at: real)
    requires BooksUsable(cand, buyBook, sellBook) && AssembleSpot(cfg, env, cand, buyBook, sellBook).Published?
    requires env.buyStatus == s.HealthOf(cand.buyLeg.venue).status
    requires env.sellStatus == s.HealthOf(cand.sellLeg.venue).status
    ensures var key := BuildSignal(cand, net, ranking, at).DedupKey();
      && key in Step(healthCfg, s, Admission(key)).active
      && forall v :: key.Touches(v) <==> v == cand.buyLeg.venue || v == cand.sellLeg.venue
  {
    var bd := AssembleSpot(cfg, env, cand, buyBook, sellBook).breakdown;
    var sizing := AssembleSpot(cfg, env, cand, buyBook, sellBook).sizing;
    PublishedPassed(cfg, env, cand, buyBook, sellBook);
    hide AssembleSpot, Validate;
    var signal := BuildSignal(cand, net, ranking, at);
    forall v ensures signal.DedupKey().Touches(v) <==> v == cand.buyLeg.venue || v == cand.sellLeg.venue {
      KeyTouchesItsVenues(signal, v);
    }
  }

  lemma VisitKeepsPending(tasks: seq<Task>, i: nat, venue: string, key: RouteKey)
    requires i < |tasks| && tasks[i].Walking? && Pending(tasks, venue, key)
    ensures tasks[i].left == [] ==> Pending(Without(tasks, i), venue, key)
    ensures tasks[i].left != [] && !(tasks[i].venue == venue && tasks[i].left[0] == key) ==>
      Pending(tasks[i := Walking(tasks[i].venue, tasks[i].left[1..])], venue, key)
  {
    var j :| 0 <= j < |tasks| && WillVisit(tasks[j], venue, key);
    if tasks[i].left == [] {
      var k := if j < i then j else j - 1;
      assert Without(tasks, i)[k] == tasks[j];
    } else {
      var after := tasks[i := Walking(tasks[i].venue, tasks[i].left[1..])];
      if !(tasks[i].venue == venue && tasks[i].left[0] == key) {
        assert WillVisit(after[j], venue, key);
      }
    }
  }

  lemma AppendKeepsPending(tasks: seq<Task>, t: Task, venue: string, key: RouteKey)
    requires Pending(tasks, venue, key) || WillVisit(t, venue, key)
    ensures Pending(tasks + [t], venue, key)
  {
    var after := tasks + [t];
    if WillVisit(t, venue, key) {
      assert WillVisit(after[|tasks|], venue, key);
    } else {
      var j :| 0 <= j < |tasks| && WillVisit(tasks[j], venue, key);
      assert WillVisit(after[j], venue, key);
    }
  }

  lemma BeginKeepsPending(tasks: seq<Task>, i: nat, listing: seq<RouteKey>, venue: string, key: RouteKey)
    requires i < |tasks| && tasks[i].Created? && key in listing && Pending(tasks, venue, key)
    ensures Pending(tasks[i := Walking(tasks[i].venue, listing)], venue, key)
  {
    var j :| 0 <= j < |tasks| && WillVisit(tasks[j], venue, key);
    assert WillVisit(tasks[i := Walking(tasks[i].venue, listing)][j], venue, key);
  }

  lemma StepKeepsCovered(cfg: HealthConfig, s: System, e: Event, venue: string, key: RouteKey)
    requires CoveredAt(s, venue, key)
    ensures CoveredAt(Step(cfg, s, e), venue, key)
  {
    hide Pending, WillVisit, Health.Step;
    match e {
      case VenueEvent(v, he) =>
        if Pending(s.tasks, venue, key) {
          AppendKeepsPending(s.tasks, Created(v), venue, key);
        } else if v == venue {
          CreatedVisitsAll(s.tasks, venue, key);
        }
      case Begin(i, listing) =>
        if Step(cfg, s, e) != s && key in s.active && Pending(s.tasks, venue, key) {
          BeginKeepsPending(s.tasks, i, listing, venue, key);
        }
      case Visit(i) =>
        if i < |s.tasks| && s.tasks[i].Walking? && Pending(s.tasks, venue, key) {
          VisitKeepsPending(s.tasks, i, venue, key);
        }
      case Admission(k) =>
      case Removal(k) =>
    }
  }

  lemma CreatedVisitsAll(tasks: seq<Task>, venue: string, key: RouteKey)
    ensures Pending(tasks + [Created(venue)], venue, key)
  {
    AppendKeepsPending(tasks, Created(venue), venue, key);
  }

  lemma {:induction false} RunKeepsCovered(cfg: HealthConfig, s: System, events: seq<Event>)
    requires forall v, k :: CoveredAt(s, v, k)
    ensures forall v, k :: CoveredAt(Run(cfg, s, events), v, k)
    decreases |events|
  {
    hide CoveredAt;
    if events != [] {
      var next := Step(cfg, s, events[0]);
      forall v, k ensures CoveredAt(next, v, k) {
        StepKeepsCovered(cfg, s, events[0], v, k);
      }
      RunKeepsCovered(cfg, next, events[1..]);
    }
  }

  /** Over every interleaving: an active route touching a venue that may not signal has a task on its way
      to it; so when no task is pending, every active route has both venues allowed. */
  lemma OutagesAreCleared(cfg: HealthConfig, events: seq<Event>, venue: string, key: RouteKey)
    ensures var s := Run(cfg, IDLE, events);
      && (key in s.active && key.Touches(venue) && !s.Allowed(venue) ==> Pending(s.tasks, venue, key))
      && (key in s.active && s.tasks == [] ==> s.BothAllowed(key))
  {
    RunKeepsCovered(cfg, IDLE, events);
    var s := Run(cfg, IDLE, events);
    assert CoveredAt(s, venue, key) && CoveredAt(s, key.venues.0, key) && CoveredAt(s, key.venues.1, key);
  }

  /** A walking task is through after one visit per key left and one more. */
  function Visits(i: nat, n: nat): seq<Event>
    decreases n
  {
    if n == 0 then [] else [Visit(i)] + Visits(i, n - 1)
  }

  /** Left alone, a task that has begun expires every active route of its listing that touches its venue,
      and no other, and is gone. */
  lemma {:induction false} TaskFinishes(cfg: HealthConfig, s: System, i: nat)
    requires i < |s.tasks| && s.tasks[i].Walking?
    ensures var t := s.tasks[i];
      var done := Run(cfg, s, Visits(i, |t.left| + 1));
      && done.tasks == Without(s.tasks, i) && done.health == s.health
      && (forall k :: k in done.active <==> k in s.active && !(k in t.left && k.Touches(t.venue)))
    decreases |s.tasks[i].left|
  {
    var t := s.tasks[i];
    var next := Step(cfg, s, Visit(i));
    var visits := Visits(i, |t.left| + 1);
    assert visits[0] == Visit(i) && visits[1..] == Visits(i, |t.left|);
    if t.left != [] {
      assert next.tasks[i] == Walking(t.venue, t.left[1..]);
      TaskFinishes(cfg, next, i);
      assert Without(next.tasks, i) == Without(s.tasks, i);
      assert forall k :: k in t.left <==> k == t.left[0] || k in t.left[1..];
    } else {
      assert Visits(i, 0) == [];
      assert Run(cfg, next, []) == next;
    }
  }

  /** Between the outage and its task the route is still active: the two facts above say no more than
      what holds. */
  lemma OutageWindow(cfg: HealthConfig, key: RouteKey, now: real)
    requires key.venues.0 != key.venues.1
    ensures var up := Health.Event.Success(true, now);
      var s := Run(cfg, IDLE, [VenueEvent(key.venues.0, up), VenueEvent(key.venues.1, up), Admission(key),
                               VenueEvent(key.venues.0, MarkedOffline)]);
      key in s.active && !s.Allowed(key.venues.0) && s.tasks == [Created(key.venues.0)]
  {
    var up := Health.Event.Success(true, now);
    var e1, e2, e3, e4 := VenueEvent(key.venues.0, up), VenueEvent(key.venues.1, up), Admission(key),
                          VenueEvent(key.venues.0, MarkedOffline);
    var s1 := Step(cfg, IDLE, e1);
    var s2 := Step(cfg, s1, e2);
    var s3 := Step(cfg, s2, e3);
    var s4 := Step(cfg, s3, e4);
    assert s2.Allowed(key.venues.0) && s2.Allowed(key.venues.1) && s2.tasks == [];
    assert [e1, e2, e3, e4][1..] == [e2, e3, e4] && [e2, e3, e4][1..] == [e3, e4] && [e3, e4][1..] == [e4];
    assert Run(cfg, s3, [e4]) == s4;
    assert Run(cfg, s2, [e3, e4]) == s4;
    assert Run(cfg, s1, [e2, e3, e4]) == s4;
  }
}
