/** Venue health (src/scanner/status/health_registry.py): how a venue leaves and regains the online state. */
module Health {
  import opened Prelude
  import opened Market

  datatype HealthConfig = HealthConfig(recoveryConsecutive: nat, wsFastReconnectMax: nat, wsIdleTimeoutSec: real)

  /** `lastStream` is the time of the last market-data tick, None when the venue has never streamed. */
  datatype VenueHealth = VenueHealth(status: ExchangeStatus, successes: nat, failures: nat, lastStream: Option<real>)

  const UNSEEN := VenueHealth(UNKNOWN, 0, 0, None)

  datatype Event =
    | Success(stream: bool, now: real)
    | Failure(hard: bool, now: real)
    | MarkedOffline
    | MarkedMaintenance
    | StalenessCheck(thresholdSec: real, offlineAfterSec: Option<real>, now: real)

  function Moved(h: VenueHealth, status: ExchangeStatus): VenueHealth {
    if h.status == status then h
    else h.(status := status, successes := if status != ONLINE then 0 else h.successes)
  }

  function AfterSuccess(cfg: HealthConfig, h: VenueHealth, stream: bool, now: real): VenueHealth {
    var counted := h.(successes := h.successes + 1, failures := 0, lastStream := if stream then Some(now)
      else h.lastStream);
    if h.status != ONLINE
       && (h.status == UNKNOWN
           || (h.status == DEGRADED && stream)
           || ((stream || counted.lastStream.None?) && counted.successes >= cfg.recoveryConsecutive))
    then Moved(counted, ONLINE) else counted
  }

  function AfterFailure(cfg: HealthConfig, h: VenueHealth, hard: bool, now: real): VenueHealth {
    var counted := h.(failures := h.failures + 1, successes := 0);
    if hard then Moved(counted, API_OFFLINE)
    else if h.lastStream.Some? && now - h.lastStream.value <= cfg.wsIdleTimeoutSec then counted
    else if counted.failures >= cfg.wsFastReconnectMax then Moved(counted, API_OFFLINE)
    else counted
  }

  function AfterStalenessCheck(h: VenueHealth, thresholdSec: real, offlineAfterSec: Option<real>,
                               now: real): VenueHealth {
    if h.lastStream.None? || now - h.lastStream.value <= thresholdSec then h
    else if offlineAfterSec.None? then (if h.status == ONLINE then Moved(h, MAINTENANCE) else h)
    else if now - h.lastStream.value > offlineAfterSec.value then
      (if h.status == ONLINE || h.status == DEGRADED then Moved(h, MAINTENANCE) else h)
    else if h.status == ONLINE then Moved(h, DEGRADED)
    else h
  }

  function Step(cfg: HealthConfig, h: VenueHealth, e: Event): VenueHealth {
    match e
    case Success(stream, now) => AfterSuccess(cfg, h, stream, now)
    case Failure(hard, now) => AfterFailure(cfg, h, hard, now)
    case MarkedOffline => Moved(h, API_OFFLINE)
    case MarkedMaintenance => Moved(h, MAINTENANCE)
    case StalenessCheck(threshold, offlineAfter, now) => AfterStalenessCheck(h, threshold, offlineAfter, now)
  }

  // ── one step ──

  /** A venue under maintenance or offline comes back in one step exactly on a success that carries market
      data (unless it has never streamed) and completes the required number in a row. */
  lemma RecoversIff(cfg: HealthConfig, h: VenueHealth, e: Event)
    requires h.status == MAINTENANCE || h.status == API_OFFLINE
    ensures Step(cfg, h, e).status == ONLINE
            <==> e.Success? && (e.stream || h.lastStream.None?) && h.successes + 1 >= cfg.recoveryConsecutive
  {
  }

  // ── runs ──

  function After(cfg: HealthConfig, events: seq<Event>, n: nat): VenueHealth
    requires n <= |events|
    decreases n
  {
    if n == 0 then UNSEEN else Step(cfg, After(cfg, events, n - 1), events[n - 1])
  }

  function SuccessesIn(events: seq<Event>, lo: nat, hi: nat): nat
    requires lo <= hi <= |events|
    decreases hi
  {
    if lo == hi then 0 else SuccessesIn(events, lo, hi - 1) + (if events[hi - 1].Success? then 1 else 0)
  }

  /** Nothing failed and the status did not move over these events. */
  ghost predicate Quiet(cfg: HealthConfig, events: seq<Event>, lo: nat, hi: nat)
    requires lo <= hi <= |events|
  {
    forall k :: lo <= k < hi ==> !events[k].Failure? && After(cfg, events, k).status == After(cfg, events, hi).status
  }

  /** Where the current streak of an unavailable venue began. */
  function StreakStart(cfg: HealthConfig, events: seq<Event>, n: nat): (s: nat)
    requires n <= |events|
    ensures s <= n
    decreases n
  {
    if n == 0 then 0
    else if events[n - 1].Failure? || After(cfg, events, n).status != After(cfg, events, n - 1).status then n
    else StreakStart(cfg, events, n - 1)
  }

  /** While a venue is not online its success counter counts the successes since its last failure or
      change of status. */
  lemma {:induction false} CounterIsStreak(cfg: HealthConfig, events: seq<Event>, n: nat)
    requires n <= |events|
    ensures Quiet(cfg, events, StreakStart(cfg, events, n), n)
    ensures After(cfg, events, n).status != ONLINE ==>
      After(cfg, events, n).successes == SuccessesIn(events, StreakStart(cfg, events, n), n)
    decreases n
  {
    if n > 0 {
      CounterIsStreak(cfg, events, n - 1);
      StreakStep(cfg, After(cfg, events, n - 1), events[n - 1]);
      hide Step;
    }
  }

  lemma StreakStep(cfg: HealthConfig, h: VenueHealth, e: Event)
    ensures var next := Step(cfg, h, e);
      next.status != ONLINE ==>
        next.successes == if e.Failure? || next.status != h.status then 0
                          else h.successes + (if e.Success? then 1 else 0)
  {
  }

  /** Over whole runs: a venue that has ever streamed comes back from maintenance or offline only on a
      stream-bearing success that ends a run, without failure or change of status, of at least the
      configured number of successes. */
  lemma RecoveryNeedsStreak(cfg: HealthConfig, events: seq<Event>, i: nat)
    requires i < |events|
    requires var before := After(cfg, events, i);
      (before.status == MAINTENANCE || before.status == API_OFFLINE) && before.lastStream.Some?
    requires After(cfg, events, i + 1).status == ONLINE
    ensures events[i].Success? && events[i].stream
    ensures exists s ::
              0 <= s <= i && Quiet(cfg, events, s, i) && SuccessesIn(events, s, i + 1) >= cfg.recoveryConsecutive
  {
    RecoversIff(cfg, After(cfg, events, i), events[i]);
    CounterIsStreak(cfg, events, i);
    var s := StreakStart(cfg, events, i);
    assert Quiet(cfg, events, s, i) && SuccessesIn(events, s, i + 1) == SuccessesIn(events, s, i) + 1;
  }

  /** A degraded venue has streamed, was online just before it degraded, and returns to online only on a
      stream-bearing success; no venue ever returns to unknown. */
  lemma {:induction false} DegradedIsBetween(cfg: HealthConfig, events: seq<Event>, n: nat)
    requires n <= |events|
    ensures var h := After(cfg, events, n);
      h.status == DEGRADED ==> h.lastStream.Some?
    ensures n > 0 ==>
      var before, h := After(cfg, events, n - 1), After(cfg, events, n);
      && (h.status == DEGRADED && before.status != DEGRADED ==>
            before.status == ONLINE && events[n - 1].StalenessCheck?)
      && (before.status == DEGRADED && h.status == ONLINE ==> events[n - 1].Success? && events[n - 1].stream)
      && (h.status == UNKNOWN ==> before.status == UNKNOWN)
    decreases n
  {
    if n > 0 {
      DegradedIsBetween(cfg, events, n - 1);
    }
  }

  // ── leaving by failures ──

  /** Every event but a mark carries the time it happened, and those never go back. */
  ghost predicate WellTimed(events: seq<Event>) {
    forall j, k :: 0 <= j < k < |events| && Clocked(events[j]) && Clocked(events[k]) ==> events[j].now <= events[k].now
  }

  predicate Clocked(e: Event) {
    e.Success? || e.Failure? || e.StalenessCheck?
  }

  function FailuresIn(events: seq<Event>, lo: nat, hi: nat): nat
    requires lo <= hi <= |events|
    decreases hi
  {
    if lo == hi then 0 else FailuresIn(events, lo, hi - 1) + (if events[hi - 1].Failure? then 1 else 0)
  }

  /** One past the last success. */
  function SinceSuccess(events: seq<Event>, n: nat): (s: nat)
    requires n <= |events|
    ensures s <= n && forall k :: s <= k < n ==> !events[k].Success?
    decreases n
  {
    if n == 0 then 0 else if events[n - 1].Success? then n else SinceSuccess(events, n - 1)
  }

  /** The failure counter counts the failures since the last success, and the stream time is that of the
      newest market-data tick. */
  lemma {:induction false} CounterIsFailures(cfg: HealthConfig, events: seq<Event>, n: nat)
    requires n <= |events| && WellTimed(events)
    ensures After(cfg, events, n).failures == FailuresIn(events, SinceSuccess(events, n), n)
    ensures forall k :: 0 <= k < n && events[k].Success? && events[k].stream ==>
              After(cfg, events, n).lastStream.Some? && events[k].now <= After(cfg, events, n).lastStream.value
    decreases n
  {
    if n > 0 {
      CounterIsFailures(cfg, events, n - 1);
    }
  }

  /** Events s to i hold no success and at least the number of failures that takes a venue down. */
  ghost predicate FailingSince(cfg: HealthConfig, events: seq<Event>, s: nat, i: nat) {
    && s <= i < |events| && (forall k :: s <= k <= i ==> !events[k].Success?)
    && FailuresIn(events, s, i + 1) >= cfg.wsFastReconnectMax
  }

  /** Over whole runs: a venue goes offline only when marked, on a hard failure, or on a soft one that
      completes the configured number of failures without a success between them, and then only if every
      market-data tick is older than the idle limit. A stream that keeps ticking outvotes every probe. */
  lemma OfflineNeedsSilence(cfg: HealthConfig, events: seq<Event>, i: nat)
    requires i < |events| && WellTimed(events)
    requires After(cfg, events, i).status != API_OFFLINE && After(cfg, events, i + 1).status == API_OFFLINE
    ensures events[i].MarkedOffline? || events[i].Failure?
    ensures events[i].Failure? && !events[i].hard ==>
      && (exists s :: FailingSince(cfg, events, s, i))
      && (forall k :: 0 <= k < i && events[k].Success? && events[k].stream ==>
            events[i].now - events[k].now > cfg.wsIdleTimeoutSec)
  {
    CounterIsFailures(cfg, events, i);
    if events[i].Failure? && !events[i].hard {
      var s := SinceSuccess(events, i);
      SoftFailure(cfg, After(cfg, events, i), events[i].now);
      assert FailuresIn(events, s, i + 1) == FailuresIn(events, s, i) + 1;
      assert FailingSince(cfg, events, s, i);
    }
  }

  lemma SoftFailure(cfg: HealthConfig, h: VenueHealth, now: real)
    ensures Step(cfg, h, Failure(false, now)).status ==
      if (h.lastStream.None? || now - h.lastStream.value > cfg.wsIdleTimeoutSec)
         && h.failures + 1 >= cfg.wsFastReconnectMax
      then API_OFFLINE else h.status
  {
  }

  // ── the status, event by event ──

  /** Time of the newest market-data tick among the first n events. */
  function NewestTick(events: seq<Event>, n: nat): (t: Option<real>)
    requires n <= |events|
    decreases n
  {
    if n == 0 then None
    else if events[n - 1].Success? && events[n - 1].stream then Some(events[n - 1].now)
    else NewestTick(events, n - 1)
  }

  lemma {:induction false} CountersAreHistory(cfg: HealthConfig, events: seq<Event>, n: nat)
    requires n <= |events|
    ensures After(cfg, events, n).lastStream == NewestTick(events, n)
    ensures After(cfg, events, n).failures == FailuresIn(events, SinceSuccess(events, n), n)
    decreases n
  {
    if n > 0 {
      CountersAreHistory(cfg, events, n - 1);
    }
  }

  /** The newest tick is more than this old; a venue that never ticked is never stale. */
  predicate StaleBy(events: seq<Event>, n: nat, now: real, limitSec: real)
    requires n <= |events|
  {
    NewestTick(events, n).Some? && now - NewestTick(events, n).value > limitSec
  }

  /** What a staleness check leaves, over runs. With one stage a venue that was online goes to maintenance exactly
      when its newest tick is older than the threshold. With two, an online venue past the threshold degrades, and
      past the longer limit an online or degraded one goes to maintenance. Otherwise nothing changes. */
  lemma StalenessCheckMeans(cfg: HealthConfig, events: seq<Event>, i: nat)
    requires i < |events| && events[i].StalenessCheck?
    ensures var before, after, check := After(cfg, events, i), After(cfg, events, i + 1), events[i];
      var stale := StaleBy(events, i, check.now, check.thresholdSec);
      && (check.offlineAfterSec.None? ==>
            after.status == if before.status == ONLINE && stale then MAINTENANCE else before.status)
      && (check.offlineAfterSec.Some? ==>
            var dead := stale && StaleBy(events, i, check.now, check.offlineAfterSec.value);
            after.status == if dead && before.status in {ONLINE, DEGRADED} then MAINTENANCE
                            else if stale && before.status == ONLINE then DEGRADED
                            else before.status)
      && (after.status == before.status ==> after == before)
  {
    CountersAreHistory(cfg, events, i);
  }

  /** So no venue that ticked stays online through a check that finds it stale, whatever the check's stages. */
  lemma StaleIsNotOnline(cfg: HealthConfig, events: seq<Event>, i: nat)
    requires i < |events| && events[i].StalenessCheck? && StaleBy(events, i, events[i].now, events[i].thresholdSec)
    ensures After(cfg, events, i + 1).status != ONLINE
  {
    StalenessCheckMeans(cfg, events, i);
  }

  /** What a failure leaves: a hard one always ends offline; a soft one does exactly when the stream has been silent
      for longer than the idle limit, or never was, and with it enough failures have come since the last success. */
  lemma FailureMeans(cfg: HealthConfig, events: seq<Event>, i: nat)
    requires i < |events| && events[i].Failure?
    ensures var before, after := After(cfg, events, i), After(cfg, events, i + 1);
      var silent := NewestTick(events, i).None? || StaleBy(events, i, events[i].now, cfg.wsIdleTimeoutSec);
      var enough := FailuresIn(events, SinceSuccess(events, i), i) + 1 >= cfg.wsFastReconnectMax;
      after.status == if events[i].hard || (silent && enough) then API_OFFLINE else before.status
  {
    CountersAreHistory(cfg, events, i);
  }

  /** What a success leaves: a new venue is online at once, a degraded one on a market-data tick, and any other on a
      tick (on any success if it never ticked) that completes the required streak. */
  lemma SuccessMeans(cfg: HealthConfig, events: seq<Event>, i: nat)
    requires i < |events| && events[i].Success?
    ensures var before, after := After(cfg, events, i), After(cfg, events, i + 1);
      var live := events[i].stream || NewestTick(events, i).None?;
      var streak := SuccessesIn(events, StreakStart(cfg, events, i), i) + 1;
      after.status == if before.status in {ONLINE, UNKNOWN} || (before.status == DEGRADED && events[i].stream)
                         || (live && streak >= cfg.recoveryConsecutive) then ONLINE else before.status
  {
    CountersAreHistory(cfg, events, i);
    CounterIsStreak(cfg, events, i);
  }

  /** And marking a venue by hand does what it says. */
  lemma MarksMean(cfg: HealthConfig, events: seq<Event>, i: nat)
    requires i < |events|
    ensures events[i].MarkedOffline? ==> After(cfg, events, i + 1).status == API_OFFLINE
    ensures events[i].MarkedMaintenance? ==> After(cfg, events, i + 1).status == MAINTENANCE
  {
  }

  // ── the kill switch ──

  /** A venue after market-data ticks at these times. */
  function Ticked(cfg: HealthConfig, h: VenueHealth, times: seq<real>): VenueHealth {
    if times == [] then h
    else Step(cfg, Ticked(cfg, h, times[..|times| - 1]), Success(true, times[|times| - 1]))
  }

  /** What a venue's streak is worth once it is switched off: a venue already offline keeps it. */
  function StreakKept(h: VenueHealth): nat {
    if h.status == API_OFFLINE then h.successes else 0
  }

  /** Ticks a venue switched off in this state needs to come back. */
  function TicksToReturn(cfg: HealthConfig, h: VenueHealth): nat {
    if StreakKept(h) + 1 >= cfg.recoveryConsecutive then 1 else cfg.recoveryConsecutive - StreakKept(h)
  }

  /** Turning a venue off by hand does not keep it off, whatever state it is in: it is back after exactly the
      required number of healthy ticks, less the streak it had if it was offline already, and at least one. */
  lemma {:induction false} KillSwitchWearsOff(cfg: HealthConfig, h: VenueHealth, times: seq<real>)
    ensures var after := Ticked(cfg, Step(cfg, h, MarkedOffline), times);
      && after.status == (if |times| >= TicksToReturn(cfg, h) then ONLINE else API_OFFLINE)
      && (after.status == API_OFFLINE ==> after.successes == StreakKept(h) + |times|)
  {
    if times != [] {
      var rest := times[..|times| - 1];
      KillSwitchWearsOff(cfg, h, rest);
      HealthyTick(cfg, Ticked(cfg, Step(cfg, h, MarkedOffline), rest), times[|times| - 1]);
      hide Step;
    }
  }

  lemma HealthyTick(cfg: HealthConfig, h: VenueHealth, now: real)
    ensures var next := Step(cfg, h, Success(true, now));
      && (h.status == ONLINE ==> next.status == ONLINE)
      && (h.status == API_OFFLINE && h.successes + 1 >= cfg.recoveryConsecutive ==> next.status == ONLINE)
      && (h.status == API_OFFLINE && h.successes + 1 < cfg.recoveryConsecutive ==>
            next.status == API_OFFLINE && next.successes == h.successes + 1)
  {
  }

  /** Pressing the switch again does not start the count again: with three ticks required, a venue pressed
      off, ticking twice and pressed off again is back on the next tick. */
  lemma SecondSwitchKeepsStreak(cfg: HealthConfig, now: real)
    requires cfg.recoveryConsecutive == 3
    ensures var tick := Success(true, now);
      var events := [tick, MarkedOffline, tick, tick, MarkedOffline, tick];
      && After(cfg, events, 5).status == API_OFFLINE && After(cfg, events, 6).status == ONLINE
      && TicksToReturn(cfg, After(cfg, events, 4)) == 1
  {
    var tick := Success(true, now);
    var events := [tick, MarkedOffline, tick, tick, MarkedOffline, tick];
    assert After(cfg, events, 1) == VenueHealth(ONLINE, 1, 0, Some(now));
    assert After(cfg, events, 2) == VenueHealth(API_OFFLINE, 0, 0, Some(now));
    assert After(cfg, events, 4) == VenueHealth(API_OFFLINE, 2, 0, Some(now));
  }

  // ── the registry object ──

  datatype Notice = Notice(venue: string, was: ExchangeStatus, became: ExchangeStatus)

  /** The callback owed for a change of status: one if it changed, none if not. */
  function NoticeOf(venue: string, was: ExchangeStatus, became: ExchangeStatus): seq<Notice> {
    if was == became then [] else [Notice(venue, was, became)]
  }

  /** The callbacks made for a venue over the first n events. */
  function Callbacks(cfg: HealthConfig, venue: string, events: seq<Event>, n: nat): seq<Notice>
    requires n <= |events|
  {
    if n == 0 then []
    else
      Callbacks(cfg, venue, events, n - 1)
      + NoticeOf(venue, After(cfg, events, n - 1).status, After(cfg, events, n).status)
  }

  /** The status that the first i callbacks leave a listener with. */
  function Heard(calls: seq<Notice>, i: nat): ExchangeStatus
    requires i <= |calls|
  {
    if i == 0 then UNKNOWN else calls[i - 1].became
  }

  /** These callbacks tell of one venue, each leaving the status the one before it announced for another, and end
      at this status. */
  ghost predicate Traces(venue: string, calls: seq<Notice>, status: ExchangeStatus) {
    && Heard(calls, |calls|) == status
    && forall i :: 0 <= i < |calls| ==>
         calls[i].venue == venue && calls[i].was == Heard(calls, i) && calls[i].became != calls[i].was
  }

  lemma TraceGrows(venue: string, calls: seq<Notice>, was: ExchangeStatus, became: ExchangeStatus)
    requires Traces(venue, calls, was)
    ensures Traces(venue, calls + NoticeOf(venue, was, became), became)
  {
    var all := calls + NoticeOf(venue, was, became);
    forall i | 0 <= i <= |calls| ensures Heard(all, i) == Heard(calls, i) {
    }
  }

  /** A listener that only follows the callbacks knows the status of the venue. */
  lemma {:induction false} CallbacksTraceStatus(cfg: HealthConfig, venue: string, events: seq<Event>, n: nat)
    requires n <= |events|
    ensures Traces(venue, Callbacks(cfg, venue, events, n), After(cfg, events, n).status)
  {
    hide Step, Traces;
    if n > 0 {
      CallbacksTraceStatus(cfg, venue, events, n - 1);
      TraceGrows(venue, Callbacks(cfg, venue, events, n - 1), After(cfg, events, n - 1).status,
                 After(cfg, events, n).status);
    } else {
      NothingHeard(venue);
    }
  }

  lemma NothingHeard(venue: string)
    ensures Traces(venue, [], UNKNOWN)
  {
  }

  class HealthRegistry {
    const cfg: HealthConfig
    var venues: map<string, VenueHealth>
    /** Every callback made, in order. */
    var notices: seq<Notice>

    constructor (cfg: HealthConfig)
      ensures this.cfg == cfg && venues == map[] && notices == []
    {
      this.cfg := cfg;
      venues, notices := map[], [];
    }

    function Of(venue: string): VenueHealth
      reads this
    {
      if venue in venues then venues[venue] else UNSEEN
    }

    method Transition(venue: string, status: ExchangeStatus)
      modifies this
      ensures venues == old(venues)[venue := Moved(old(Of(venue)), status)]
      ensures notices == old(notices) + NoticeOf(venue, old(Of(venue)).status, status)
    {
      var h := Of(venue);
      var was := h.status;
      venues := venues[venue := h];
      if was == status {
        return;
      }
      venues := venues[venue := h.(status := status, successes := if status != ONLINE then 0 else h.successes)];
      notices := notices + [Notice(venue, was, status)];
    }

    method RecordSuccess(venue: string, stream: bool, now: real)
      modifies this
      ensures venues == old(venues)[venue := Step(cfg, old(Of(venue)), Success(stream, now))]
      ensures notices == old(notices) + NoticeOf(venue, old(Of(venue)).status, Of(venue).status)
    {
      var h := Of(venue);
      h := h.(successes := h.successes + 1, failures := 0);
      if stream {
        h := h.(lastStream := Some(now));
      }
      venues := venues[venue := h];
      if h.status != ONLINE {
        var streamOk := stream || h.lastStream.None?;
        if h.status == UNKNOWN || (h.status == DEGRADED && stream)
           || (streamOk && h.successes >= cfg.recoveryConsecutive)
        {
          Transition(venue, ONLINE);
        }
      }
    }

    method RecordFailure(venue: string, hard: bool, now: real)
      modifies this
      ensures venues == old(venues)[venue := Step(cfg, old(Of(venue)), Failure(hard, now))]
      ensures notices == old(notices) + NoticeOf(venue, old(Of(venue)).status, Of(venue).status)
    {
      var h := Of(venue);
      h := h.(failures := h.failures + 1, successes := 0);
      venues := venues[venue := h];
      if hard {
        Transition(venue, API_OFFLINE);
        return;
      }
      if h.lastStream.Some? && now - h.lastStream.value <= cfg.wsIdleTimeoutSec {
        return;
      }
      if h.failures >= cfg.wsFastReconnectMax {
        Transition(venue, API_OFFLINE);
      }
    }

    method MarkOffline(venue: string)
      modifies this
      ensures venues == old(venues)[venue := Step(cfg, old(Of(venue)), MarkedOffline)]
      ensures notices == old(notices) + NoticeOf(venue, old(Of(venue)).status, Of(venue).status)
    {
      Transition(venue, API_OFFLINE);
    }

    method MarkMaintenance(venue: string)
      modifies this
      ensures venues == old(venues)[venue := Step(cfg, old(Of(venue)), MarkedMaintenance)]
      ensures notices == old(notices) + NoticeOf(venue, old(Of(venue)).status, Of(venue).status)
    {
      Transition(venue, MAINTENANCE);
    }

    method CheckStaleness(venue: string, thresholdSec: real, offlineAfterSec: Option<real>, now: real)
      modifies this
      ensures var check := StalenessCheck(thresholdSec, offlineAfterSec, now);
        venues == old(venues)[venue := Step(cfg, old(Of(venue)), check)]
      ensures notices == old(notices) + NoticeOf(venue, old(Of(venue)).status, Of(venue).status)
    {
      var h := Of(venue);
      venues := venues[venue := h];
      if h.lastStream.None? {
        return;
      }
      var age := now - h.lastStream.value;
      if age <= thresholdSec {
        return;
      }
      if offlineAfterSec.None? {
        if h.status == ONLINE {
          Transition(venue, MAINTENANCE);
        }
        return;
      }
      if age > offlineAfterSec.value {
        if h.status == ONLINE || h.status == DEGRADED {
          Transition(venue, MAINTENANCE);
        }
      } else if h.status == ONLINE {
        Transition(venue, DEGRADED);
      }
    }
  }
}
