/** Signal lifecycle and post-expiry cooldown (src/scanner/lifecycle/manager.py, cooldown.py). */
module Lifecycle {
  import opened Prelude
  import opened Market
  import opened Config
  import opened Mathx
  import opened Signals

  datatype LifeConfig = LifeConfig(
    ttlByType: map<ArbType, real>,
    cooldownByType: map<ArbType, real>,
    significantProfitChangePct: real)
  {
    function TtlFor(t: ArbType): real {
      if t in ttlByType then ttlByType[t] else 120.0
    }

    function CooldownFor(t: ArbType): real {
      if t in cooldownByType then cooldownByType[t] else 60.0
    }
  }

  // ── cooldown store: when each route's cooldown ends ──

  const PURGE_THRESHOLD := 1024

  /** Whether a new signal on the route would be held back at this time. */
  predicate Blocks(store: map<RouteKey, real>, key: RouteKey, at: real) {
    key in store && at < store[key]
  }

  function Purged(store: map<RouteKey, real>, now: real): map<RouteKey, real> {
    if |store| > PURGE_THRESHOLD then map k | k in store && store[k] > now :: store[k] else store
  }

  function CooledDown(cfg: LifeConfig, store: map<RouteKey, real>, key: RouteKey, now: real): map<RouteKey, real> {
    var duration := cfg.CooldownFor(key.arbType);
    if duration <= 0.0 then store else Purged(store, now)[key := now + duration]
  }

  /** Asking removes an elapsed entry. */
  function Asked(store: map<RouteKey, real>, key: RouteKey, now: real): map<RouteKey, real> {
    if key in store && now >= store[key] then store - {key} else store
  }

  /** Neither an expiry, with its opportunistic purge, nor a query changes what the store answers for any
      other route from now on; and after an expiry the route itself is blocked for exactly its duration. */
  lemma StoreAnswers(cfg: LifeConfig, store: map<RouteKey, real>, key: RouteKey, now: real, other: RouteKey, at: real)
    requires at >= now
    ensures Blocks(Asked(store, key, now), other, at) <==> Blocks(store, other, at)
    ensures other != key ==> (Blocks(CooledDown(cfg, store, key, now), other, at) <==> Blocks(store, other, at))
    ensures var d := cfg.CooldownFor(key.arbType);
      Blocks(CooledDown(cfg, store, key, now), key, at) <==> if d > 0.0 then at < now + d else Blocks(store, key, at)
  {
    var d := cfg.CooldownFor(key.arbType);
    if d > 0.0 && other != key {
      var purged := Purged(store, now);
      assert other in CooledDown(cfg, store, key, now) <==> other in purged;
      assert Blocks(purged, other, at) <==> Blocks(store, other, at);
    }
  }

  /** What the store holds: an expiry with a cooldown enters its route, and drops others only when there are more than
      the purge allows, and then exactly those that have run out; a query drops its own route once that has. */
  lemma StoreHolds(cfg: LifeConfig, store: map<RouteKey, real>, key: RouteKey, now: real, other: RouteKey)
    ensures var after := CooledDown(cfg, store, key, now);
      && (cfg.CooldownFor(key.arbType) > 0.0 ==> key in after && after[key] == now + cfg.CooldownFor(key.arbType))
      && (cfg.CooldownFor(key.arbType) > 0.0 && other != key ==>
            (other in after <==> other in store && (|store| <= 1024 || store[other] > now))
            && (other in after ==> after[other] == store[other]))
    ensures other in Asked(store, key, now) <==> other in store && (other != key || now < store[other])
  {
  }

  /** From now on the store answers as before, except that these routes are blocked for their duration. */
  ghost predicate CooledTogether(cfg: LifeConfig, before: map<RouteKey, real>, after: map<RouteKey, real>,
                                 keys: set<RouteKey>, now: real)
  {
    forall k, at :: at >= now ==>
      (Blocks(after, k, at) <==>
       if k in keys && cfg.CooldownFor(k.arbType) > 0.0 then at < now + cfg.CooldownFor(k.arbType)
       else Blocks(before, k, at))
  }

  lemma OneMoreCooled(cfg: LifeConfig, first: map<RouteKey, real>, store: map<RouteKey, real>, keys: set<RouteKey>,
                      key: RouteKey, now: real)
    requires CooledTogether(cfg, first, store, keys, now)
    ensures CooledTogether(cfg, first, CooledDown(cfg, store, key, now), keys + {key}, now)
  {
    hide Blocks, CooledDown;
    forall k, at | at >= now
      ensures Blocks(CooledDown(cfg, store, key, now), k, at) <==>
        if k in keys + {key} && cfg.CooldownFor(k.arbType) > 0.0 then at < now + cfg.CooldownFor(k.arbType)
        else Blocks(first, k, at)
    {
      StoreAnswers(cfg, store, key, now, k, at);
    }
  }

  // ── the active set ──

  datatype State = State(active: map<RouteKey, Signal>, cooldowns: map<RouteKey, real>)

  datatype Outcome = New | Update | Suppressed

  function ExpiryOf(cfg: LifeConfig, s: Signal): real {
    if s.arbType == FUNDING && Truthy(s.fundingNextTime) then s.fundingNextTime.value
    else s.timestamp + cfg.TtlFor(s.arbType)
  }

  function WithTtl(cfg: LifeConfig, s: Signal): Signal {
    s.(expiresAt := ExpiryOf(cfg, s))
  }

  predicate SignificantChange(cfg: LifeConfig, oldNet: real, newNet: real) {
    if oldNet == 0.0 then newNet != 0.0
    else AbsReal(newNet - oldNet) / AbsReal(oldNet) * 100.0 >= cfg.significantProfitChangePct
  }

  function Admitted(cfg: LifeConfig, st: State, s: Signal, now: real): (State, Outcome) {
    var key := s.DedupKey();
    if key in st.active then
      var existing := st.active[key];
      var kept := WithTtl(cfg, s.(timestamp := existing.timestamp));
      var significant := SignificantChange(cfg, existing.netProfitUsd, s.netProfitUsd) || s.ranking != existing.ranking;
      (st.(active := st.active[key := kept]), if significant then Update else Suppressed)
    else
      (State(st.active[key := WithTtl(cfg, s)], Asked(st.cooldowns, key, now)),
       if Blocks(st.cooldowns, key, now) then Suppressed else New)
  }

  /** Expiry of a route, stamped with a time; nothing happens to a route that is not active. */
  function Expired(cfg: LifeConfig, st: State, key: RouteKey, stamp: real): State {
    if key !in st.active then st
    else State(st.active - {key}, CooledDown(cfg, st.cooldowns, key, stamp))
  }

  // ── runs ──

  /** An expiry carries the stamp its caller took, which may be older than the moment it happens. */
  datatype Event = AdmitEvent(signal: Signal, now: real) | ExpireEvent(key: RouteKey, stamp: real, now: real)

  function Step(cfg: LifeConfig, st: State, e: Event): State {
    match e
    case AdmitEvent(s, now) => Admitted(cfg, st, s, now).0
    case ExpireEvent(key, stamp, _) => Expired(cfg, st, key, stamp)
  }

  const NOTHING := State(map[], map[])

  function After(cfg: LifeConfig, events: seq<Event>, n: nat): State
    requires n <= |events|
    decreases n
  {
    if n == 0 then NOTHING else Step(cfg, After(cfg, events, n - 1), events[n - 1])
  }

  /** Clock times never go back, and a stamp is never ahead of the clock. */
  ghost predicate WellTimed(events: seq<Event>) {
    && (forall i, j :: 0 <= i <= j < |events| ==> events[i].now <= events[j].now)
    && (forall i :: 0 <= i < |events| && events[i].ExpireEvent? ==> events[i].stamp <= events[i].now)
  }

  /** Event i published its signal as new. */
  predicate NewAt(cfg: LifeConfig, events: seq<Event>, i: nat, key: RouteKey) {
    i < |events| && events[i].AdmitEvent? && events[i].signal.DedupKey() == key
    && Admitted(cfg, After(cfg, events, i), events[i].signal, events[i].now).1 == New
  }

  /** Event i took the route out of the active set. */
  predicate ExpiredAt(cfg: LifeConfig, events: seq<Event>, i: nat, key: RouteKey) {
    i < |events| && events[i].ExpireEvent? && events[i].key == key && key in After(cfg, events, i).active
  }

  /** The last of the first n events that took the route out. */
  function LastExpiry(cfg: LifeConfig, events: seq<Event>, n: nat, key: RouteKey): (r: Option<nat>)
    requires n <= |events|
    ensures r.Some? ==> r.value < n && ExpiredAt(cfg, events, r.value, key)
    ensures forall i :: (if r.Some? then r.value < i < n else 0 <= i < n) ==> !ExpiredAt(cfg, events, i, key)
    decreases n
  {
    if n == 0 then None
    else if ExpiredAt(cfg, events, n - 1, key) then Some(n - 1)
    else LastExpiry(cfg, events, n - 1, key)
  }

  /** The store holds the route's last cooldown until at least its end. */
  ghost predicate CooldownKept(cfg: LifeConfig, events: seq<Event>, n: nat, key: RouteKey)
    requires n <= |events|
  {
    var last, store, d := LastExpiry(cfg, events, n, key), After(cfg, events, n).cooldowns,
      cfg.CooldownFor(key.arbType);
    if last.None? then key !in store
    else if key in store then d > 0.0 && store[key] == events[last.value].stamp + d
    else d > 0.0 ==> n > 0 && events[last.value].stamp + d <= events[n - 1].now
  }

  lemma {:induction false} CooldownIsKept(cfg: LifeConfig, events: seq<Event>, n: nat, key: RouteKey)
    requires n <= |events| && WellTimed(events)
    ensures CooldownKept(cfg, events, n, key)
    decreases n
  {
    if n > 0 {
      CooldownIsKept(cfg, events, n - 1, key);
      CooldownStep(cfg, events, n, key);
    }
  }

  lemma CooldownStep(cfg: LifeConfig, events: seq<Event>, n: nat, key: RouteKey)
    requires 0 < n <= |events| && WellTimed(events) && CooldownKept(cfg, events, n - 1, key)
    ensures CooldownKept(cfg, events, n, key)
  {
    hide Signal.DedupKey, SignificantChange, WithTtl;
    var st, e := After(cfg, events, n - 1), events[n - 1];
    assert n >= 2 ==> events[n - 2].now <= e.now;
    match e {
      case AdmitEvent(s, now) =>
      case ExpireEvent(k, stamp, now) =>
        if k in st.active && k != key {
          PurgeDropsElapsed(cfg, st.cooldowns, k, stamp, key);
        }
    }
  }

  lemma PurgeDropsElapsed(cfg: LifeConfig, store: map<RouteKey, real>, k: RouteKey, stamp: real, key: RouteKey)
    requires k != key
    ensures var after := CooledDown(cfg, store, k, stamp);
      && (key in after ==> key in store && after[key] == store[key])
      && (key in store && key !in after ==> store[key] <= stamp)
  {
  }

  /** A route goes from active to inactive only by an expiry in between. */
  lemma {:induction false} OnlyExpiryRemoves(cfg: LifeConfig, events: seq<Event>, a: nat, n: nat, key: RouteKey)
    requires a <= n <= |events| && key in After(cfg, events, a).active
    ensures key !in After(cfg, events, n).active ==>
      LastExpiry(cfg, events, n, key).Some? && LastExpiry(cfg, events, n, key).value >= a
    decreases n
  {
    hide Signal.DedupKey, SignificantChange, WithTtl;
    if n > a {
      OnlyExpiryRemoves(cfg, events, a, n - 1, key);
    }
  }

  /** Two publications of a route as new are separated by an expiry of the route, and the second comes no
      earlier than the route's cooldown after the stamp of the last expiry before it. */
  lemma NewSignalsAreSeparated(cfg: LifeConfig, events: seq<Event>, i: nat, j: nat, key: RouteKey)
    requires WellTimed(events) && i < j && NewAt(cfg, events, i, key) && NewAt(cfg, events, j, key)
    ensures exists e :: i < e < j && ExpiredAt(cfg, events, e, key)
                        && (forall f :: e < f < j ==> !ExpiredAt(cfg, events, f, key))
                        && events[j].now >= events[e].stamp + cfg.CooldownFor(key.arbType)
  {
    hide Signal.DedupKey, SignificantChange, WithTtl;
    assert key in After(cfg, events, i + 1).active;
    OnlyExpiryRemoves(cfg, events, i + 1, j, key);
    CooldownIsKept(cfg, events, j, key);
    var e := LastExpiry(cfg, events, j, key).value;
    assert events[j - 1].now <= events[j].now && events[e].now <= events[j].now;
  }

  /** Where no expiry of the route in between carries a stamp from before the first publication, the gap is at
      least the cooldown on the clock, however late expiries act on their stamps. */
  lemma NewSignalsAreFarApart(cfg: LifeConfig, events: seq<Event>, i: nat, j: nat, key: RouteKey)
    requires WellTimed(events) && i < j && NewAt(cfg, events, i, key) && NewAt(cfg, events, j, key)
    requires forall e :: i < e < j && ExpiredAt(cfg, events, e, key) ==> events[e].stamp >= events[i].now
    ensures events[j].now - events[i].now >= cfg.CooldownFor(key.arbType)
  {
    hide After, Admitted;
    NewSignalsAreSeparated(cfg, events, i, j, key);
    var e :| i < e < j && ExpiredAt(cfg, events, e, key)
      && events[j].now >= events[e].stamp + cfg.CooldownFor(key.arbType);
  }

  // ── expiry time ──

  /** The admission that made the route active, if it is. */
  function FirstAdmission(cfg: LifeConfig, events: seq<Event>, n: nat, key: RouteKey): (r: Option<nat>)
    requires n <= |events|
    ensures r.Some? ==> r.value < n && events[r.value].AdmitEvent? && events[r.value].signal.DedupKey() == key
                        && key !in After(cfg, events, r.value).active
    decreases n
  {
    if n == 0 then None
    else
      var before, e := FirstAdmission(cfg, events, n - 1, key), events[n - 1];
      if e.AdmitEvent? && e.signal.DedupKey() == key && key !in After(cfg, events, n - 1).active then Some(n - 1)
      else if ExpiredAt(cfg, events, n - 1, key) then None
      else before
  }

  /** However often an active route other than a funding carry is updated, it expires at the time-to-live
      after the timestamp of the signal first admitted. */
  lemma {:induction false} UpdatesNeverPostponeExpiry(cfg: LifeConfig, events: seq<Event>, n: nat, key: RouteKey)
    requires n <= |events| && key.arbType != FUNDING
    ensures var first := FirstAdmission(cfg, events, n, key);
      key in After(cfg, events, n).active <==> first.Some?
    ensures var first, active := FirstAdmission(cfg, events, n, key), After(cfg, events, n).active;
      first.Some? ==>
        var stamp := events[first.value].signal.timestamp;
        active[key].timestamp == stamp && active[key].expiresAt == stamp + cfg.TtlFor(key.arbType)
    decreases n
  {
    if n > 0 {
      UpdatesNeverPostponeExpiry(cfg, events, n - 1, key);
      hide SignificantChange, CooledDown, Asked, ExpiryOf;
      if events[n - 1].AdmitEvent? && events[n - 1].signal.DedupKey() == key {
        TtlFromStamp(cfg, events[n - 1].signal, key);
      }
    }
  }

  lemma TtlFromStamp(cfg: LifeConfig, s: Signal, key: RouteKey)
    requires s.DedupKey() == key && key.arbType != FUNDING
    ensures forall stamp :: ExpiryOf(cfg, s.(timestamp := stamp)) == stamp + cfg.TtlFor(key.arbType)
    ensures ExpiryOf(cfg, s) == s.timestamp + cfg.TtlFor(key.arbType)
  {
  }

  /** The last admission of the route among the first n events. */
  function LastAdmission(events: seq<Event>, n: nat, key: RouteKey): (r: Option<nat>)
    requires n <= |events|
    ensures r.Some? ==> r.value < n && events[r.value].AdmitEvent? && events[r.value].signal.DedupKey() == key
    decreases n
  {
    if n == 0 then None
    else if events[n - 1].AdmitEvent? && events[n - 1].signal.DedupKey() == key then Some(n - 1)
    else LastAdmission(events, n - 1, key)
  }

  /** What is active: for an active route the signal last admitted, with the timestamp of the first since the route
      became active; it expires at its own next settlement if it is a funding carry that names one, and else at the
      time-to-live of its kind after that timestamp. */
  lemma {:induction false} ActiveIsLastAdmitted(cfg: LifeConfig, events: seq<Event>, n: nat, key: RouteKey)
    requires n <= |events|
    ensures var first, last := FirstAdmission(cfg, events, n, key), LastAdmission(events, n, key);
      var active := After(cfg, events, n).active;
      && (key in active <==> first.Some?)
      && (first.Some? ==> last.Some?)
    ensures var first, last := FirstAdmission(cfg, events, n, key), LastAdmission(events, n, key);
      first.Some? && last.Some? ==>
        var s, since := events[last.value].signal, events[first.value].signal.timestamp;
        var carried := s.arbType == FUNDING && s.fundingNextTime.Some? && s.fundingNextTime.value != 0.0;
        After(cfg, events, n).active[key]
        == s.(timestamp := since,
              expiresAt := if carried then s.fundingNextTime.value
                           else since + (if s.arbType in cfg.ttlByType then cfg.ttlByType[s.arbType] else 120.0))
    decreases n
  {
    hide Signal.DedupKey, SignificantChange, CooledDown, Asked;
    if n > 0 {
      ActiveIsLastAdmitted(cfg, events, n - 1, key);
    }
  }

  /** When a route is published as new: exactly when it is not active and no cooldown runs, that is, when it never
      expired, or has no cooldown, or that has passed since the stamp of its last expiry. */
  lemma NewIff(cfg: LifeConfig, events: seq<Event>, i: nat, key: RouteKey)
    requires WellTimed(events) && i < |events| && events[i].AdmitEvent? && events[i].signal.DedupKey() == key
    ensures var last := LastExpiry(cfg, events, i, key);
      var d := if key.arbType in cfg.cooldownByType then cfg.cooldownByType[key.arbType] else 60.0;
      NewAt(cfg, events, i, key) <==>
        key !in After(cfg, events, i).active
        && (last.None? || d <= 0.0 || events[i].now >= events[last.value].stamp + d)
  {
    hide Signal.DedupKey, SignificantChange, WithTtl, CooledDown, Asked;
    CooldownIsKept(cfg, events, i, key);
    assert i > 0 ==> events[i - 1].now <= events[i].now;
  }

  // ── what the cooldown does not do ──

  /** A late stamp shortens the cooldown: a sweep that finds a signal past its time but takes it out only `late`
      seconds after its stamp lets the route be published as new again `late` seconds before the cooldown has
      passed on the clock. */
  lemma LateStampShortensCooldown(cfg: LifeConfig, s: Signal, again: Signal, start: real, stamp: real, late: real)
    requires 0.0 < late < cfg.CooldownFor(s.arbType) && again.DedupKey() == s.DedupKey()
    requires stamp >= start && stamp >= ExpiryOf(cfg, s)
    ensures var d, key := cfg.CooldownFor(s.arbType), s.DedupKey();
      var events := [AdmitEvent(s, start), ExpireEvent(key, stamp, stamp + late), AdmitEvent(again, stamp + d)];
      && WellTimed(events) && NewAt(cfg, events, 0, key) && ExpiredAt(cfg, events, 1, key) && NewAt(cfg, events, 2, key)
      && key in After(cfg, events, 1).active && stamp >= After(cfg, events, 1).active[key].expiresAt
      && events[2].now - events[1].now == d - late
  {
    hide Signal.DedupKey, SignificantChange;
    var d, key := cfg.CooldownFor(s.arbType), s.DedupKey();
    var events := [AdmitEvent(s, start), ExpireEvent(key, stamp, stamp + late), AdmitEvent(again, stamp + d)];
    KeyHasType(s);
    var one := After(cfg, events, 1);
    assert one.active[key] == WithTtl(cfg, s) && key !in one.cooldowns;
    hide WithTtl;
    var two := After(cfg, events, 2);
    assert key !in two.active && two.cooldowns == map[key := stamp + d];
  }

  lemma KeyHasType(s: Signal)
    ensures s.DedupKey().arbType == s.arbType
  {
  }

  /** Cooldown holds back new publications only: a route taken up silently during its cooldown is
      published again, as an update, as soon as its profit moves enough. */
  lemma UpdateDuringCooldown(cfg: LifeConfig, s: Signal, net: real, start: real, at: real)
    requires start < at < start + cfg.CooldownFor(s.arbType)
    requires SignificantChange(cfg, s.netProfitUsd, net)
    ensures var key := s.DedupKey();
      var events := [AdmitEvent(s, start), ExpireEvent(key, start, start), AdmitEvent(s, at)];
      var st := After(cfg, events, 3);
      && Admitted(cfg, After(cfg, events, 2), s, at).1 == Suppressed
      && Admitted(cfg, st, s.(netProfitUsd := net), at).1 == Update
  {
    hide SignificantChange;
    var key := s.DedupKey();
    var events := [AdmitEvent(s, start), ExpireEvent(key, start, start), AdmitEvent(s, at)];
    assert s.(netProfitUsd := net).DedupKey() == key;
    hide Signal.DedupKey;
    KeyHasType(s);
    assert key in After(cfg, events, 1).active;
    var two := After(cfg, events, 2);
    assert key !in two.active && two.cooldowns == map[key := start + cfg.CooldownFor(s.arbType)];
    var three := After(cfg, events, 3);
    assert three.active[key].netProfitUsd == s.netProfitUsd;
  }

  /** Which change of profit is significant, up or down: one that moves it out of the band of the threshold around
      what it was; from nothing, any change is. */
  lemma SignificantIff(cfg: LifeConfig, before: real, after: real)
    ensures before == 0.0 ==> (SignificantChange(cfg, before, after) <==> after != 0.0)
    ensures before > 0.0 ==> (SignificantChange(cfg, before, after) <==>
              after >= before + before * cfg.significantProfitChangePct / 100.0
              || after <= before - before * cfg.significantProfitChangePct / 100.0)
    ensures before < 0.0 ==> (SignificantChange(cfg, before, after) <==>
              after >= before - before * cfg.significantProfitChangePct / 100.0
              || after <= before + before * cfg.significantProfitChangePct / 100.0)
  {
    if before != 0.0 {
      BandOf(AbsReal(after - before), AbsReal(before), cfg.significantProfitChangePct);
    }
  }

  lemma BandOf(change: real, size: real, pct: real)
    requires size > 0.0
    ensures change / size * 100.0 >= pct <==> change >= size * pct / 100.0
  {
    var x := change / size;
    assert x * size == change;
    SignKept(x - pct / 100.0, size);
    assert (x - pct / 100.0) * size == change - size * pct / 100.0;
  }

  /** The state after the first n of these updates of a route, each with its time. */
  function Updated(cfg: LifeConfig, st: State, updates: seq<(Signal, real)>, n: nat): State
    requires n <= |updates|
    decreases n
  {
    if n == 0 then st else Admitted(cfg, Updated(cfg, st, updates, n - 1), updates[n - 1].0, updates[n - 1].1).0
  }

  predicate AllFor(updates: seq<(Signal, real)>, key: RouteKey) {
    forall k :: 0 <= k < |updates| ==> updates[k].0.DedupKey() == key
  }

  /** Whether update n would be published after the ones before it. */
  predicate PublishedAt(cfg: LifeConfig, st: State, updates: seq<(Signal, real)>, n: nat)
    requires n < |updates|
  {
    Admitted(cfg, Updated(cfg, st, updates, n), updates[n].0, updates[n].1).1 != Suppressed
  }

  /** The signal that update n replaces: the update before it, published or not. */
  function Replaced(st: State, key: RouteKey, updates: seq<(Signal, real)>, n: nat): Signal
    requires n <= |updates| && key in st.active
  {
    if n == 0 then st.active[key] else updates[n - 1].0
  }

  lemma {:induction false} LastUpdateIsActive(cfg: LifeConfig, st: State, key: RouteKey,
                                              updates: seq<(Signal, real)>, n: nat)
    requires n <= |updates| && key in st.active && AllFor(updates, key)
    ensures var now, last := Updated(cfg, st, updates, n).active, Replaced(st, key, updates, n);
      key in now && now[key].netProfitUsd == last.netProfitUsd && now[key].ranking == last.ranking
    decreases n
  {
    hide SignificantChange;
    if n > 0 {
      LastUpdateIsActive(cfg, st, key, updates, n - 1);
      hide Signal.DedupKey;
    }
  }

  /** Each update is compared with the one before it, published or not. So a sequence of updates of an active
      route, at whatever times, passes in silence exactly when the ranking never changes and no single step
      in profit is significant, however far the profit has moved in all. */
  lemma SilentIffStepsAreSmall(cfg: LifeConfig, st: State, key: RouteKey, updates: seq<(Signal, real)>)
    requires key in st.active && AllFor(updates, key)
    ensures (forall n :: 0 <= n < |updates| ==> !PublishedAt(cfg, st, updates, n)) <==>
      forall n :: 0 <= n < |updates| ==>
        updates[n].0.ranking == st.active[key].ranking
        && !SignificantChange(cfg, Replaced(st, key, updates, n).netProfitUsd, updates[n].0.netProfitUsd)
  {
    forall n | 0 <= n < |updates|
      ensures !PublishedAt(cfg, st, updates, n) <==>
        updates[n].0.ranking == Replaced(st, key, updates, n).ranking
        && !SignificantChange(cfg, Replaced(st, key, updates, n).netProfitUsd, updates[n].0.netProfitUsd)
    {
      LastUpdateIsActive(cfg, st, key, updates, n);
      hide SignificantChange, Updated;
    }
    hide PublishedAt, SignificantChange;
    SameRankThroughout(st, key, updates, |updates|);
  }

  /** No step changes the ranking exactly when every ranking is the first. */
  lemma {:induction false} SameRankThroughout(st: State, key: RouteKey, updates: seq<(Signal, real)>, n: nat)
    requires n <= |updates| && key in st.active
    ensures (forall k :: 0 <= k < n ==> updates[k].0.ranking == Replaced(st, key, updates, k).ranking)
            <==> forall k :: 0 <= k < n ==> updates[k].0.ranking == st.active[key].ranking
    decreases n
  {
    if n > 0 {
      SameRankThroughout(st, key, updates, n - 1);
    }
  }

  function Risen(net: real, step: real, k: nat): real {
    net + step * k as real
  }

  /** One step changes the profit by less than the threshold. */
  predicate Slow(cfg: LifeConfig, net: real, step: real) {
    net > 0.0 && step > 0.0 && step / net * 100.0 < cfg.significantProfitChangePct
  }

  /** Update k earns k + 1 steps more than the signal, at the k-th of these times. */
  function Drift(s: Signal, step: real, times: seq<real>): (updates: seq<(Signal, real)>)
    ensures |updates| == |times|
  {
    seq(|times|, k requires 0 <= k < |times| => (s.(netProfitUsd := Risen(s.netProfitUsd, step, k + 1)), times[k]))
  }

  /** In particular a profit that grows by less than the threshold at a time is never published. */
  lemma SlowDriftIsSilent(cfg: LifeConfig, st: State, s: Signal, step: real, times: seq<real>)
    requires Slow(cfg, s.netProfitUsd, step) && s.DedupKey() in st.active
    requires st.active[s.DedupKey()].netProfitUsd == s.netProfitUsd && st.active[s.DedupKey()].ranking == s.ranking
    ensures forall n :: 0 <= n < |times| ==> !PublishedAt(cfg, st, Drift(s, step, times), n)
  {
    var key, updates := s.DedupKey(), Drift(s, step, times);
    assert AllFor(updates, key);
    hide Signal.DedupKey, PublishedAt;
    forall n | 0 <= n < |updates|
      ensures !SignificantChange(cfg, Replaced(st, key, updates, n).netProfitUsd, updates[n].0.netProfitUsd)
    {
      SmallStep(cfg, s.netProfitUsd, step, n + 1);
      assert Risen(s.netProfitUsd, step, 0) == s.netProfitUsd;
    }
    hide SignificantChange, Risen, Slow;
    SilentIffStepsAreSmall(cfg, st, key, updates);
  }

  lemma SmallStep(cfg: LifeConfig, net: real, step: real, n: nat)
    requires Slow(cfg, net, step) && n > 0
    ensures !SignificantChange(cfg, Risen(net, step, n - 1), Risen(net, step, n))
  {
    var before := net + step * (n - 1) as real;
    assert step * (n - 1) as real >= 0.0;
    assert net + step * n as real - before == step;
    var x, y := step / net, step / before;
    assert x * net == step && y * before == step;
    assert (x - y) * before == x * (before - net);
    SignKept(x, net);
    assert x * (before - net) >= 0.0;
    SignKept(x - y, before);
  }

  // ── the two objects ──

  class CooldownStore {
    const cfg: LifeConfig
    var cooldowns: map<RouteKey, real>

    constructor (cfg: LifeConfig)
      ensures this.cfg == cfg && cooldowns == map[]
    {
      this.cfg := cfg;
      cooldowns := map[];
    }

    method OnExpired(key: RouteKey, now: real)
      modifies this
      ensures cooldowns == CooledDown(cfg, old(cooldowns), key, now)
    {
      var duration := cfg.CooldownFor(key.arbType);
      if duration <= 0.0 {
        return;
      }
      if |cooldowns| > PURGE_THRESHOLD {
        cooldowns := map k | k in cooldowns && cooldowns[k] > now :: cooldowns[k];
      }
      cooldowns := cooldowns[key := now + duration];
    }

    method InCooldown(key: RouteKey, now: real) returns (r: bool)
      modifies this
      ensures r == Blocks(old(cooldowns), key, now)
      ensures cooldowns == Asked(old(cooldowns), key, now)
    {
      if key !in cooldowns {
        return false;
      }
      if now >= cooldowns[key] {
        cooldowns := cooldowns - {key};
        return false;
      }
      return true;
    }
  }

  class LifecycleManager {
    const cooldown: CooldownStore
    var active: map<RouteKey, Signal>

    ghost function View(): State
      reads this, cooldown
    {
      State(active, cooldown.cooldowns)
    }

    constructor (cfg: LifeConfig)
      ensures fresh(cooldown) && cooldown.cfg == cfg && View() == NOTHING
    {
      cooldown := new CooldownStore(cfg);
      active := map[];
    }

    method Admit(s: Signal, now: real) returns (published: bool, event: Outcome)
      modifies this, cooldown
      ensures (View(), event) == Admitted(cooldown.cfg, old(View()), s, now)
      ensures published <==> event != Suppressed
    {
      hide Signal.DedupKey, SignificantChange, WithTtl, Asked;
      var cfg := cooldown.cfg;
      var key := s.DedupKey();
      if key in active {
        var existing := active[key];
        var significant := SignificantChange(cfg, existing.netProfitUsd, s.netProfitUsd)
          || s.ranking != existing.ranking;
        active := active[key := WithTtl(cfg, s.(timestamp := existing.timestamp))];
        event := if significant then Update else Suppressed;
        return significant, event;
      }
      var held := cooldown.InCooldown(key, now);
      active := active[key := WithTtl(cfg, s)];
      event := if held then Suppressed else New;
      return !held, event;
    }

    method Expire(key: RouteKey, now: real)
      modifies this, cooldown
      ensures View() == Expired(cooldown.cfg, old(View()), key, now)
    {
      hide CooledDown;
      if key in active {
        active := active - {key};
        cooldown.OnExpired(key, now);
      }
    }

    /** The loops over a snapshot of the active set, uninterrupted. */
    method ExpireAll(keys: set<RouteKey>, now: real) returns (count: nat)
      requires keys <= active.Keys
      modifies this, cooldown
      ensures active == old(active) - keys && count == |keys|
      ensures CooledTogether(cooldown.cfg, old(cooldown.cooldowns), cooldown.cooldowns, keys, now)
    {
      hide Blocks, CooledDown;
      count := 0;
      var left := keys;
      while left != {}
        invariant left <= keys && count == |keys| - |left|
        invariant active == old(active) - (keys - left)
        invariant CooledTogether(cooldown.cfg, old(cooldown.cooldowns), cooldown.cooldowns, keys - left, now)
        decreases |left|
      {
        var key :| key in left;
        ghost var before := cooldown.cooldowns;
        Expire(key, now);
        OneMoreCooled(cooldown.cfg, old(cooldown.cooldowns), before, keys - left, key, now);
        assert keys - left + {key} == keys - (left - {key});
        left := left - {key};
        count := count + 1;
      }
    }

    /** Age-based expiry: exactly the signals past their time leave, each entering its cooldown. */
    method SweepExpired(now: real) returns (count: nat)
      modifies this, cooldown
      ensures var gone := set k | k in old(active) && now >= old(active[k].expiresAt);
        && active == old(active) - gone && count == |gone|
        && CooledTogether(cooldown.cfg, old(cooldown.cooldowns), cooldown.cooldowns, gone, now)
    {
      hide CooledTogether;
      var keys := set k | k in active && now >= active[k].expiresAt;
      count := ExpireAll(keys, now);
    }

    /** Every signal touching the venue leaves, and no other. */
    method ForceExpireVenue(venue: string, now: real) returns (count: nat)
      modifies this, cooldown
      ensures var gone := set k | k in old(active)
                                  && (old(active[k].buyExchange) == venue || old(active[k].sellExchange) == venue);
        && active == old(active) - gone && count == |gone|
        && CooledTogether(cooldown.cfg, old(cooldown.cooldowns), cooldown.cooldowns, gone, now)
    {
      hide CooledTogether;
      var keys := set k | k in active && (active[k].buyExchange == venue || active[k].sellExchange == venue);
      count := ExpireAll(keys, now);
    }

    method ForceExpireDelisted(pair: string, now: real) returns (count: nat)
      modifies this, cooldown
      ensures var gone := set k | k in old(active) && old(active[k].tradingPair) == pair;
        && active == old(active) - gone && count == |gone|
        && CooledTogether(cooldown.cfg, old(cooldown.cooldowns), cooldown.cooldowns, gone, now)
    {
      hide CooledTogether;
      var keys := set k | k in active && active[k].tradingPair == pair;
      count := ExpireAll(keys, now);
    }

    method CloseIfSpreadGone(key: RouteKey, now: real) returns (closed: bool)
      modifies this, cooldown
      ensures View() == Expired(cooldown.cfg, old(View()), key, now)
      ensures closed <==> key in old(active)
    {
      closed := key in active;
      if closed {
        Expire(key, now);
      }
    }
  }
}
