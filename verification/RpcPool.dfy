/** The pool of RPC providers with its circuit breakers (src/scanner/adapters/rpc_pool.py). */
module RpcPool {
  import opened Prelude
  import opened Mathx

  datatype ErrorKind = UNAUTHORIZED | HTTP | RATE_LIMIT | TIMEOUT | RPC_ERROR {
    /** The kinds that speak against the endpoint itself. */
    predicate IsHard() {
      HTTP? || RATE_LIMIT? || TIMEOUT?
    }
  }

  datatype PoolConfig = PoolConfig(
    failThreshold: nat,
    cooldownBaseSec: real,
    cooldownMaxSec: real,
    slowLatencyMs: real,
    permanentFailThreshold: nat)

  const PERMANENT_COOLDOWN_SEC := 315360000.0
  const TIMEOUT_STREAK_MULTIPLIER := 2

  /** A provider; tier 0 is the paid one. None stands for an event that has not happened yet. */
  datatype Provider = Provider(
    url: string,
    tier: nat,
    score: real,
    latencyMs: real,
    timeoutRate: real,
    failStreak: nat,
    streakHasNonTimeout: bool,
    disabledUntil: real,
    cooldown: real,
    permanent: bool,
    lastSuccess: Option<real>,
    lastFailure: Option<real>)
  {
    predicate Healthy(now: real) {
      !permanent && now >= disabledUntil
    }

    predicate InRange() {
      0.0 <= score <= 1.0 && 0.0 <= timeoutRate <= 1.0 && 0.0 <= latencyMs
    }
  }

  function Fresh(url: string, tier: nat): Provider {
    Provider(url, tier, 1.0, 0.0, 0.0, 0, false, 0.0, 0.0, false, None, None)
  }

  function AfterSuccess(p: Provider, latencyMs: real, now: real): Provider {
    p.(score := MinReal(1.0, p.score * 0.8 + 0.2),
       latencyMs := if latencyMs > 0.0 then (if p.latencyMs == 0.0 then latencyMs
         else p.latencyMs * 0.8 + latencyMs * 0.2)
                    else p.latencyMs,
       timeoutRate := p.timeoutRate * 0.8,
       failStreak := 0, streakHasNonTimeout := false, cooldown := 0.0, disabledUntil := 0.0, permanent := false,
       lastSuccess := Some(now))
  }

  function Counted(p: Provider, kind: ErrorKind, now: real): Provider {
    p.(score := MaxReal(0.0, p.score * 0.8),
       timeoutRate := p.timeoutRate * 0.8 + (if kind == TIMEOUT then 0.2 else 0.0),
       failStreak := p.failStreak + 1,
       streakHasNonTimeout := p.streakHasNonTimeout || kind != TIMEOUT,
       lastFailure := Some(now))
  }

  function Retired(p: Provider, now: real): Provider {
    p.(permanent := true, cooldown := PERMANENT_COOLDOWN_SEC, disabledUntil := now + PERMANENT_COOLDOWN_SEC)
  }

  function NextCooldown(cfg: PoolConfig, p: Provider, kind: ErrorKind): real {
    var start := if kind.IsHard() then cfg.cooldownBaseSec else cfg.cooldownBaseSec / 2.0;
    MinReal(cfg.cooldownMaxSec, if p.cooldown == 0.0 then start else p.cooldown * 2.0)
  }

  /** Length of a failure streak that takes a provider out of rotation: doubled for timeouts alone. */
  function Threshold(cfg: PoolConfig, hasNonTimeout: bool): nat {
    if hasNonTimeout then cfg.failThreshold else cfg.failThreshold * TIMEOUT_STREAK_MULTIPLIER
  }

  function AfterFailure(cfg: PoolConfig, p: Provider, kind: ErrorKind, now: real): Provider {
    var c := Counted(p, kind, now);
    if kind == UNAUTHORIZED then (if c.permanent then c else Retired(c, now))
    else if cfg.permanentFailThreshold > 0 && kind.IsHard() && c.failStreak >= cfg.permanentFailThreshold
      && !c.permanent
    then Retired(c, now)
    else if c.failStreak >= Threshold(cfg, c.streakHasNonTimeout) && c.disabledUntil <= now then
      var cooldown := NextCooldown(cfg, c, kind);
      c.(cooldown := cooldown, disabledUntil := now + cooldown)
    else c
  }

  // ── one provider over a run ──

  datatype Event = Success(latencyMs: real, now: real) | Failure(kind: ErrorKind, now: real)

  function StepProvider(cfg: PoolConfig, p: Provider, e: Event): Provider {
    match e
    case Success(latency, now) => AfterSuccess(p, latency, now)
    case Failure(kind, now) => AfterFailure(cfg, p, kind, now)
  }

  function After(cfg: PoolConfig, p: Provider, events: seq<Event>, n: nat): Provider
    requires n <= |events|
    decreases n
  {
    if n == 0 then p else StepProvider(cfg, After(cfg, p, events, n - 1), events[n - 1])
  }

  /** Failures since the last success. */
  function Trailing(events: seq<Event>, n: nat): (k: nat)
    requires n <= |events|
    ensures k <= n
    decreases n
  {
    if n == 0 || events[n - 1].Success? then 0 else Trailing(events, n - 1) + 1
  }

  /** Some failure since the last success was not a timeout. */
  predicate NonTimeoutTrailing(events: seq<Event>, n: nat)
    requires n <= |events|
    decreases n
  {
    n > 0 && events[n - 1].Failure? && (events[n - 1].kind != TIMEOUT || NonTimeoutTrailing(events, n - 1))
  }

  /** The streak counters say how many failures came last, and whether any was not a timeout; rates stay
      fractions. */
  lemma {:induction false} StreakIsTrailing(cfg: PoolConfig, url: string, tier: nat, events: seq<Event>, n: nat)
    requires n <= |events|
    ensures var p := After(cfg, Fresh(url, tier), events, n);
      && p.failStreak == Trailing(events, n) && p.streakHasNonTimeout == NonTimeoutTrailing(events, n)
      && p.InRange() && p.url == url && p.tier == tier
    decreases n
  {
    if n > 0 {
      StreakIsTrailing(cfg, url, tier, events, n - 1);
      RatesStayInRange(cfg, After(cfg, Fresh(url, tier), events, n - 1), events[n - 1]);
    }
  }

  /** A provider nothing failed at since its last success, or ever, is in rotation. */
  lemma AnswersAreInRotation(cfg: PoolConfig, url: string, tier: nat, events: seq<Event>, n: nat, now: real)
    requires n <= |events| && now >= 0.0 && (n == 0 || events[n - 1].Success?)
    ensures After(cfg, Fresh(url, tier), events, n).Healthy(now)
  {
  }

  /** An answer moves the latency a fifth of the way to what it took, and the score and the timeout rate a fifth of
      the way to one and to zero; a failure moves the score a fifth of the way to zero. */
  lemma AveragesMoveByAFifth(cfg: PoolConfig, p: Provider, latencyMs: real, kind: ErrorKind, now: real)
    requires p.InRange() && latencyMs > 0.0
    ensures var answered, failed := AfterSuccess(p, latencyMs, now), AfterFailure(cfg, p, kind, now);
      && answered.latencyMs == (if p.latencyMs == 0.0 then latencyMs
                                else p.latencyMs + (latencyMs - p.latencyMs) / 5.0)
      && AfterSuccess(p, 0.0, now).latencyMs == p.latencyMs == failed.latencyMs
      && answered.score == p.score + (1.0 - p.score) / 5.0 && failed.score == p.score - p.score / 5.0
      && answered.timeoutRate == p.timeoutRate - p.timeoutRate / 5.0
      && failed.timeoutRate == p.timeoutRate + ((if kind == TIMEOUT then 1.0 else 0.0) - p.timeoutRate) / 5.0
      && answered.lastSuccess == Some(now) && answered.lastFailure == p.lastFailure
      && failed.lastFailure == Some(now) && failed.lastSuccess == p.lastSuccess
  {
  }

  /** The last Trailing(n) events are failures; they are timeouts alone exactly when the flag is not set. */
  lemma {:induction false} TrailingAreFailures(events: seq<Event>, n: nat)
    requires n <= |events|
    ensures forall i :: n - Trailing(events, n) <= i < n ==> events[i].Failure?
    ensures (forall i :: n - Trailing(events, n) <= i < n ==> events[i].kind == TIMEOUT) <==>
        !NonTimeoutTrailing(events, n)
    decreases n
  {
    if n > 0 {
      TrailingAreFailures(events, n - 1);
    }
  }

  lemma RatesStayInRange(cfg: PoolConfig, p: Provider, e: Event)
    requires p.InRange()
    ensures StepProvider(cfg, p, e).InRange()
  {
  }

  /** When one more failure takes a provider out: it is retired exactly on an authentication failure or a
      hard failure completing the permanent streak; otherwise it trips exactly when its streak has reached
      the threshold and it is not already cooling down, and then for the doubled cooldown up to the maximum. */
  lemma TripsIff(cfg: PoolConfig, p: Provider, kind: ErrorKind, now: real)
    requires cfg.cooldownBaseSec > 0.0 && cfg.cooldownMaxSec > 0.0 && p.cooldown >= 0.0 && !p.permanent
    ensures var after := AfterFailure(cfg, p, kind, now);
      var streak := p.failStreak + 1;
      && (after.permanent <==>
          kind == UNAUTHORIZED
          || (cfg.permanentFailThreshold > 0 && kind.IsHard() && streak >= cfg.permanentFailThreshold))
      && (!after.permanent ==>
          (after.disabledUntil != p.disabledUntil <==>
           streak >= (if p.streakHasNonTimeout || kind != TIMEOUT then 1 else 2) * cfg.failThreshold
           && p.disabledUntil <= now))
      && (!after.permanent && after.disabledUntil != p.disabledUntil ==>
          && after.disabledUntil == now + after.cooldown && 0.0 < after.cooldown <= cfg.cooldownMaxSec
          && (p.cooldown > 0.0 ==> after.cooldown == MinReal(cfg.cooldownMaxSec, 2.0 * p.cooldown))
          && (p.cooldown == 0.0 ==> after.cooldown == MinReal(cfg.cooldownMaxSec,
                if kind == RPC_ERROR then cfg.cooldownBaseSec / 2.0 else cfg.cooldownBaseSec)))
      && (after.permanent ==> after.disabledUntil == now + PERMANENT_COOLDOWN_SEC)
  {
  }

  /** Over a run: a provider leaves the rotation only on an authentication failure, or on the last of a
      streak of failures as long as its threshold, which is doubled while every failure of the streak was
      a timeout; and unless retired it is out for at most the maximum cooldown. */
  lemma LeavesRotationOnlyAfterStreak(cfg: PoolConfig, url: string, tier: nat, events: seq<Event>, i: nat)
    requires i < |events| && events[i].now >= 0.0
    requires var p := After(cfg, Fresh(url, tier), events, i);
      p.Healthy(events[i].now) && !After(cfg, Fresh(url, tier), events, i + 1).Healthy(events[i].now)
    ensures forall k :: i + 1 - Trailing(events, i + 1) <= k <= i ==> events[k].Failure?
    ensures events[i].Failure?
    ensures var after, streak := After(cfg, Fresh(url, tier), events, i + 1), Trailing(events, i + 1);
      || events[i].kind == UNAUTHORIZED
      || (after.permanent && 0 < cfg.permanentFailThreshold <= streak && events[i].kind.IsHard())
      || (!after.permanent && streak >= cfg.failThreshold && after.disabledUntil <= events[i].now + cfg.cooldownMaxSec
          && ((forall k :: i + 1 - streak <= k <= i ==> events[k].kind == TIMEOUT) ==> streak >= 2 * cfg.failThreshold))
  {
    StreakIsTrailing(cfg, url, tier, events, i);
    TrailingAreFailures(events, i + 1);
  }

  // ── ranking ──

  /** The nearest whole number, to the even one when halfway. */
  function RoundHalfEven(x: real): int {
    var f := x.Floor;
    var rest := x - f as real;
    if rest < 0.5 then f else if rest > 0.5 then f + 1 else if f % 2 == 0 then f else f + 1
  }

  /** Up to 0.35 for being slower than the best. */
  function LatencyCost(latencyMs: real, bestLatencyMs: real): real {
    var ratio := if bestLatencyMs > 0.0 then latencyMs / bestLatencyMs else 0.0;
    if latencyMs > 0.0 && bestLatencyMs > 0.0 && ratio > 1.0 then MinReal((ratio - 1.0) / 2.0, 1.0) * 0.35 else 0.0
  }

  function RecencyBonus(lastSuccess: Option<real>, now: real): real {
    if lastSuccess.Some? && now - lastSuccess.value <= 60.0 then 0.15 else 0.0
  }

  function StabilityBonus(lastFailure: Option<real>, now: real): real {
    if lastFailure.Some? then MinReal((now - lastFailure.value) / 600.0, 1.0) * 0.15 else 0.15
  }

  function Rank(p: Provider, now: real, bestLatencyMs: real, slowLatencyMs: real): real {
    p.score - LatencyCost(p.latencyMs, bestLatencyMs)
    - (if slowLatencyMs > 0.0 && p.latencyMs > slowLatencyMs then 0.5 else 0.0)
    - p.timeoutRate * 0.2 + RecencyBonus(p.lastSuccess, now) + StabilityBonus(p.lastFailure, now)
  }

  /** A provider no worse in every respect ranks no lower: success rate, latency, timeouts, how recently it
      answered, how long ago it failed. */
  lemma RankIsMonotone(p: Provider, q: Provider, now: real, best: real, slow: real)
    requires p.score >= q.score && p.latencyMs <= q.latencyMs && p.timeoutRate <= q.timeoutRate
    requires q.lastSuccess.Some? ==> p.lastSuccess.Some? && p.lastSuccess.value >= q.lastSuccess.value
    requires p.lastFailure.Some? ==> q.lastFailure.Some? && p.lastFailure.value <= q.lastFailure.value
    requires 0.0 <= p.latencyMs
    ensures Rank(p, now, best, slow) >= Rank(q, now, best, slow)
  {
    if best > 0.0 {
      NotionalOrder(best, p.latencyMs, q.latencyMs);
      RatioOrder(p.latencyMs, best, q.latencyMs, best);
    }
  }

  /** By how much one provider leads another in everything but latency. */
  function Lead(p: Provider, q: Provider, now: real): real {
    p.score - q.score + 0.2 * (q.timeoutRate - p.timeoutRate)
    + (RecencyBonus(p.lastSuccess, now) - RecencyBonus(q.lastSuccess, now))
    + (StabilityBonus(p.lastFailure, now) - StabilityBonus(q.lastFailure, now))
  }

  predicate Past(latencyMs: real, slowLatencyMs: real) {
    slowLatencyMs > 0.0 && latencyMs > slowLatencyMs
  }

  /** A provider under the latency ceiling ranks no lower than one past it exactly when the slow one's lead in
      everything else is at most the penalty and the difference in latency cost, which favours the fast one. */
  lemma FastRanksNoLowerIff(p: Provider, q: Provider, now: real, best: real, slow: real)
    requires Past(p.latencyMs, slow) && !Past(q.latencyMs, slow)
    ensures Rank(q, now, best, slow) >= Rank(p, now, best, slow)
            <==> Lead(p, q, now) <= 0.5 + (LatencyCost(p.latencyMs, best) - LatencyCost(q.latencyMs, best))
    ensures 0.0 <= LatencyCost(p.latencyMs, best) - LatencyCost(q.latencyMs, best) <= 0.35
  {
    LatencyCostOrder(q.latencyMs, p.latencyMs, best);
  }

  lemma LatencyCostOrder(a: real, b: real, best: real)
    requires a <= b
    ensures 0.0 <= LatencyCost(a, best) <= LatencyCost(b, best) <= 0.35
  {
    if best > 0.0 {
      NotionalOrder(best, a, b);
      RatioOrder(a, best, b, best);
    }
  }

  // ── what histories can leave ──

  /** What scores and rates remember of each other: a timeout costs the score what it adds to the timeout rate,
      and the score is whole exactly while nothing has failed. */
  predicate Remembered(p: Provider) {
    && p.InRange() && p.score + p.timeoutRate <= 1.0 && (p.score == 1.0 <==> p.lastFailure.None?)
    && (p.latencyMs > 0.0 ==> p.lastSuccess.Some?)
  }

  /** Every history from a fresh provider leaves it so. */
  lemma {:induction false} HistoryIsRemembered(cfg: PoolConfig, url: string, tier: nat, events: seq<Event>, n: nat)
    requires n <= |events|
    ensures Remembered(After(cfg, Fresh(url, tier), events, n))
    decreases n
  {
    hide Remembered, StepProvider;
    if n == 0 {
      FreshIsRemembered(url, tier);
    } else {
      HistoryIsRemembered(cfg, url, tier, events, n - 1);
      StepRemembers(cfg, After(cfg, Fresh(url, tier), events, n - 1), events[n - 1]);
    }
  }

  lemma FreshIsRemembered(url: string, tier: nat)
    ensures Remembered(Fresh(url, tier))
  {
  }

  lemma StepRemembers(cfg: PoolConfig, p: Provider, e: Event)
    requires Remembered(p)
    ensures Remembered(StepProvider(cfg, p, e))
  {
  }

  /** A provider told by its score and latency; of the rest, only what every history keeps is known. */
  ghost predicate Told(p: Provider, score: real, latencyMs: real, now: real) {
    p.score == score && p.latencyMs == latencyMs && Remembered(p)
    && (p.lastFailure.Some? ==> p.lastFailure.value <= now)
  }

  /** What scores, latencies and that invariant promise, whatever timeouts, recency and stability go with them:
      beside a fast provider that never failed no slow one ranks higher; beside one that did, exactly while the
      slow one's score leads by no more than the latency costs differ and a fifth of the fast one's score. Which
      histories there are is asked below. */
  lemma PenaltySufficesIff(slowScore: real, fastScore: real, slowMs: real, fastMs: real, now: real, best: real,
                           slow: real)
    requires Past(slowMs, slow) && !Past(fastMs, slow) && fastMs >= 0.0
    requires 0.0 <= slowScore <= 1.0 && 0.0 <= fastScore <= 1.0
    ensures (forall p, q :: Told(p, slowScore, slowMs, now) && Told(q, fastScore, fastMs, now) ==>
               Rank(q, now, best, slow) >= Rank(p, now, best, slow))
            <==> fastScore == 1.0
                 || slowScore - fastScore <= LatencyCost(slowMs, best) - LatencyCost(fastMs, best) + 0.2 * fastScore
  {
    hide Rank, LatencyCost;
    if fastScore == 1.0
       || slowScore - fastScore <= LatencyCost(slowMs, best) - LatencyCost(fastMs, best) + 0.2 * fastScore {
      forall p, q | Told(p, slowScore, slowMs, now) && Told(q, fastScore, fastMs, now)
        ensures Rank(q, now, best, slow) >= Rank(p, now, best, slow)
      {
        FastRanksNoLowerIff(p, q, now, best, slow);
      }
    } else {
      var p := Fresh("slow", 1).(score := slowScore, latencyMs := slowMs, lastSuccess := Some(now),
                                 lastFailure := if slowScore == 1.0 then None else Some(now - 600.0));
      var q := Fresh("fast", 1).(score := fastScore, latencyMs := fastMs, timeoutRate := 1.0 - fastScore,
                                 lastSuccess := if fastMs > 0.0 then Some(now - 61.0) else None,
                                 lastFailure := Some(now));
      FastRanksNoLowerIff(p, q, now, best, slow);
      assert Told(p, slowScore, slowMs, now) && Told(q, fastScore, fastMs, now);
      assert StabilityBonus(q.lastFailure, now) == 0.0 && RecencyBonus(q.lastSuccess, now) == 0.0;
      assert StabilityBonus(p.lastFailure, now) == 0.15 && RecencyBonus(p.lastSuccess, now) == 0.15;
    }
  }

  // ── what a record of answers and failures promises ──

  /** The score that a record of answered (true) and failed calls leaves. */
  function RecordScore(record: seq<bool>, n: nat): (r: real)
    requires n <= |record|
    ensures 0.0 <= r <= 1.0
    decreases n
  {
    if n == 0 then 1.0 else RecordScore(record, n - 1) * 0.8 + (if record[n - 1] then 0.2 else 0.0)
  }

  predicate Fits(events: seq<Event>, record: seq<bool>) {
    |events| == |record| && forall i :: 0 <= i < |events| ==> (events[i].Success? <==> record[i])
  }

  predicate InTime(events: seq<Event>, now: real) {
    (forall i, j :: 0 <= i <= j < |events| ==> events[i].now <= events[j].now)
    && (forall i :: 0 <= i < |events| ==> events[i].now <= now)
  }

  /** A history of a new provider that answered and failed in this order and ends at this latency. */
  predicate History(cfg: PoolConfig, url: string, tier: nat, events: seq<Event>, record: seq<bool>, latencyMs: real,
                    now: real)
  {
    Fits(events, record) && InTime(events, now)
    && After(cfg, Fresh(url, tier), events, |events|).latencyMs == latencyMs
  }

  predicate AllAnswered(record: seq<bool>) {
    forall i :: 0 <= i < |record| ==> record[i]
  }

  predicate EndsFailed(record: seq<bool>) {
    record != [] && !record[|record| - 1]
  }

  /** The most that recency and stability can add for a record with an answer in it: both in full, unless it
      ends in a failure, which then is as recent as its last answer or more. */
  function MostBonus(record: seq<bool>): real {
    if EndsFailed(record) then 0.165 else 0.3
  }

  /** And the least they come down to: an answer that is no longer recent is a minute after its last failure. */
  function LeastBonus(record: seq<bool>): real {
    if AllAnswered(record) then 0.15 else if EndsFailed(record) then 0.0 else 0.015
  }

  /** What the events so far left in the fields that the ranking reads. */
  lemma {:induction false} RecordLeaves(cfg: PoolConfig, url: string, tier: nat, events: seq<Event>, record: seq<bool>,
                                        n: nat)
    requires n <= |events| && Fits(events, record)
    ensures var p := After(cfg, Fresh(url, tier), events, n);
      && p.score == RecordScore(record, n) && p.timeoutRate >= 0.0 && p.score + p.timeoutRate <= 1.0
      && (p.lastFailure.None? <==> forall i :: 0 <= i < n ==> record[i])
      && (p.lastFailure.Some? ==> exists i :: 0 <= i < n && !record[i] && p.lastFailure == Some(events[i].now))
      && (p.lastSuccess.Some? ==> exists i :: 0 <= i < n && record[i] && p.lastSuccess == Some(events[i].now))
      && (n > 0 && record[n - 1] ==> p.lastSuccess == Some(events[n - 1].now))
      && (n > 0 && !record[n - 1] ==> p.lastFailure == Some(events[n - 1].now))
    decreases n
  {
    if n > 0 {
      RecordLeaves(cfg, url, tier, events, record, n - 1);
      var before, p := After(cfg, Fresh(url, tier), events, n - 1), After(cfg, Fresh(url, tier), events, n);
      if record[n - 1] {
        assert p.lastFailure == before.lastFailure && p.lastSuccess == Some(events[n - 1].now);
      } else {
        assert p.lastSuccess == before.lastSuccess && p.lastFailure == Some(events[n - 1].now);
      }
    }
  }

  lemma BonusIsBetween(cfg: PoolConfig, url: string, tier: nat, events: seq<Event>, record: seq<bool>, latencyMs: real,
                       now: real)
    requires History(cfg, url, tier, events, record, latencyMs, now)
    ensures var p := After(cfg, Fresh(url, tier), events, |events|);
      var bonus := RecencyBonus(p.lastSuccess, now) + StabilityBonus(p.lastFailure, now);
      && LeastBonus(record) <= bonus && (record != [] ==> bonus <= MostBonus(record))
  {
    RecordLeaves(cfg, url, tier, events, record, |events|);
  }
  /** A history with this record: every answer at one latency, every failure of one kind, all at one time but
      the last. */
  function Made(record: seq<bool>, latencyMs: real, kind: ErrorKind, early: real, last: real): (events: seq<Event>)
    ensures |events| == |record|
    ensures forall i :: 0 <= i < |events| ==>
      events[i] == if record[i] then Success(latencyMs, if i == |record| - 1 then last else early)
                   else Failure(kind, if i == |record| - 1 then last else early)
  {
    seq(|record|, i requires 0 <= i < |record| =>
      if record[i] then Success(latencyMs, if i == |record| - 1 then last else early)
      else Failure(kind, if i == |record| - 1 then last else early))
  }

  predicate Answered(record: seq<bool>, n: nat)
    requires n <= |record|
  {
    exists i :: 0 <= i < n && record[i]
  }

  lemma {:induction false} MadeLeaves(cfg: PoolConfig, url: string, record: seq<bool>, latencyMs: real,
                                      kind: ErrorKind, early: real, last: real, n: nat)
    requires n <= |record| && latencyMs >= 0.0 && (kind == TIMEOUT || kind == RPC_ERROR)
    ensures var p := After(cfg, Fresh(url, 1), Made(record, latencyMs, kind, early, last), n);
      && p.latencyMs == (if Answered(record, n) then latencyMs else 0.0)
      && p.timeoutRate == if kind == TIMEOUT then 1.0 - RecordScore(record, n) else 0.0
    decreases n
  {
    if n > 0 {
      MadeLeaves(cfg, url, record, latencyMs, kind, early, last, n - 1);
      assert Answered(record, n) <==> Answered(record, n - 1) || record[n - 1];
    }
  }

  /** As good as its record allows: timely answers, old failures, none of them a timeout. */
  lemma BestHistory(cfg: PoolConfig, record: seq<bool>, latencyMs: real, now: real) returns (events: seq<Event>)
    requires latencyMs > 0.0 && Answered(record, |record|)
    ensures History(cfg, "slow", 1, events, record, latencyMs, now)
    ensures var p := After(cfg, Fresh("slow", 1), events, |events|);
      && p.timeoutRate == 0.0
      && RecencyBonus(p.lastSuccess, now) + StabilityBonus(p.lastFailure, now) == MostBonus(record)
  {
    hide After, RecordScore;
    var early := if EndsFailed(record) then now - 60.0 else now - 600.0;
    var last := if EndsFailed(record) then now - 60.0 else now;
    events := Made(record, latencyMs, RPC_ERROR, early, last);
    MadeLeaves(cfg, "slow", record, latencyMs, RPC_ERROR, early, last, |record|);
    RecordLeaves(cfg, "slow", 1, events, record, |events|);
    HasSucceeded(cfg, "slow", events, record, latencyMs);
  }

  lemma HasSucceeded(cfg: PoolConfig, url: string, events: seq<Event>, record: seq<bool>, latencyMs: real)
    requires After(cfg, Fresh(url, 1), events, |events|).latencyMs == latencyMs > 0.0
    ensures After(cfg, Fresh(url, 1), events, |events|).lastSuccess.Some?
  {
    HistoryIsRemembered(cfg, url, 1, events, |events|);
  }

  /** As bad, but for a margin: no recent answer, fresh failures, all of them timeouts. */
  lemma WorstHistory(cfg: PoolConfig, record: seq<bool>, latencyMs: real, now: real, margin: real)
    returns (events: seq<Event>)
    requires latencyMs >= 0.0 && (latencyMs > 0.0 ==> Answered(record, |record|)) && margin > 0.0
    ensures History(cfg, "fast", 1, events, record, latencyMs, now)
    ensures var p := After(cfg, Fresh("fast", 1), events, |events|);
      && p.timeoutRate == 1.0 - RecordScore(record, |record|)
      && RecencyBonus(p.lastSuccess, now) + StabilityBonus(p.lastFailure, now) <= LeastBonus(record) + margin
  {
    hide After, RecordScore;
    var early := now - 60.0 - MinReal(540.0, margin);
    var last := if EndsFailed(record) then now else early;
    events := Made(record, latencyMs, TIMEOUT, early, last);
    MadeLeaves(cfg, "fast", record, latencyMs, TIMEOUT, early, last, |record|);
    RecordLeaves(cfg, "fast", 1, events, record, |events|);
  }

  /** What the records of two providers promise, whenever their calls were made and however they failed: the fast
      one ranks no lower than the slow one exactly when the lead in score, the timeouts that may lie behind the
      fast one's failures, and the most that recency and stability can differ come to at most the penalty and
      the difference in latency cost. */
  lemma RecordSufficesIff(cfg: PoolConfig, slowRecord: seq<bool>, fastRecord: seq<bool>, slowMs: real, fastMs: real,
                          now: real, best: real, slow: real)
    requires Past(slowMs, slow) && !Past(fastMs, slow) && fastMs >= 0.0
    requires Answered(slowRecord, |slowRecord|) && (fastMs > 0.0 ==> Answered(fastRecord, |fastRecord|))
    ensures (forall p, q :: History(cfg, "slow", 1, p, slowRecord, slowMs, now)
                            && History(cfg, "fast", 1, q, fastRecord, fastMs, now)
               ==> RanksNoLower(cfg, q, p, now, best, slow))
            <==> WorstLead(slowRecord, fastRecord)
                 <= 0.5 + (LatencyCost(slowMs, best) - LatencyCost(fastMs, best))
  {
    hide LatencyCost, History, RanksNoLower;
    var room := 0.5 + (LatencyCost(slowMs, best) - LatencyCost(fastMs, best)) - WorstLead(slowRecord, fastRecord);
    if room >= 0.0 {
      forall p, q | History(cfg, "slow", 1, p, slowRecord, slowMs, now)
                    && History(cfg, "fast", 1, q, fastRecord, fastMs, now)
        ensures RanksNoLower(cfg, q, p, now, best, slow)
      {
        RecordBoundsLead(cfg, p, q, slowRecord, fastRecord, slowMs, fastMs, now, best, slow);
      }
    } else {
      var p := BestHistory(cfg, slowRecord, slowMs, now);
      var q := WorstHistory(cfg, fastRecord, fastMs, now, -room / 2.0);
      LeadIsReached(cfg, p, q, slowRecord, fastRecord, slowMs, fastMs, now, best, slow);
    }
  }

  /** The rank of the fast provider after its history is no lower than the slow one's after its own. */
  predicate RanksNoLower(cfg: PoolConfig, fast: seq<Event>, slow: seq<Event>, now: real, best: real, slowMs: real) {
    Rank(After(cfg, Fresh("fast", 1), fast, |fast|), now, best, slowMs)
    >= Rank(After(cfg, Fresh("slow", 1), slow, |slow|), now, best, slowMs)
  }

  function WorstLead(slowRecord: seq<bool>, fastRecord: seq<bool>): real {
    var s, f := RecordScore(slowRecord, |slowRecord|), RecordScore(fastRecord, |fastRecord|);
    s - f + 0.2 * (1.0 - f) + MostBonus(slowRecord) - LeastBonus(fastRecord)
  }

  lemma RecordBoundsLead(cfg: PoolConfig, p: seq<Event>, q: seq<Event>, slowRecord: seq<bool>, fastRecord: seq<bool>,
                         slowMs: real, fastMs: real, now: real, best: real, slow: real)
    requires Past(slowMs, slow) && !Past(fastMs, slow) && slowRecord != []
    requires History(cfg, "slow", 1, p, slowRecord, slowMs, now) && History(cfg, "fast", 1, q, fastRecord, fastMs, now)
    requires WorstLead(slowRecord, fastRecord) <= 0.5 + (LatencyCost(slowMs, best) - LatencyCost(fastMs, best))
    ensures RanksNoLower(cfg, q, p, now, best, slow)
  {
    RecordLeaves(cfg, "slow", 1, p, slowRecord, |p|);
    RecordLeaves(cfg, "fast", 1, q, fastRecord, |q|);
    BonusIsBetween(cfg, "slow", 1, p, slowRecord, slowMs, now);
    BonusIsBetween(cfg, "fast", 1, q, fastRecord, fastMs, now);
    hide Rank, LatencyCost, RecencyBonus, StabilityBonus, MostBonus, LeastBonus, After;
    FastRanksNoLowerIff(After(cfg, Fresh("slow", 1), p, |p|), After(cfg, Fresh("fast", 1), q, |q|), now, best, slow);
  }

  lemma LeadIsReached(cfg: PoolConfig, p: seq<Event>, q: seq<Event>, slowRecord: seq<bool>, fastRecord: seq<bool>,
                      slowMs: real, fastMs: real, now: real, best: real, slow: real)
    requires Past(slowMs, slow) && !Past(fastMs, slow)
    requires History(cfg, "slow", 1, p, slowRecord, slowMs, now) && History(cfg, "fast", 1, q, fastRecord, fastMs, now)
    requires var room := 0.5 + (LatencyCost(slowMs, best) - LatencyCost(fastMs, best))
                         - WorstLead(slowRecord, fastRecord);
      var s, f := After(cfg, Fresh("slow", 1), p, |p|), After(cfg, Fresh("fast", 1), q, |q|);
      && room < 0.0 && s.timeoutRate == 0.0 && f.timeoutRate == 1.0 - RecordScore(fastRecord, |fastRecord|)
      && RecencyBonus(s.lastSuccess, now) + StabilityBonus(s.lastFailure, now) == MostBonus(slowRecord)
      && RecencyBonus(f.lastSuccess, now) + StabilityBonus(f.lastFailure, now) <= LeastBonus(fastRecord) - room / 2.0
    ensures !RanksNoLower(cfg, q, p, now, best, slow)
  {
    RecordLeaves(cfg, "slow", 1, p, slowRecord, |p|);
    RecordLeaves(cfg, "fast", 1, q, fastRecord, |q|);
    hide Rank, LatencyCost, RecencyBonus, StabilityBonus, MostBonus, LeastBonus, After;
    FastRanksNoLowerIff(After(cfg, Fresh("slow", 1), p, |p|), After(cfg, Fresh("fast", 1), q, |q|), now, best, slow);
  }

  /** So the penalty does not put every faster provider first: a slow one that answered once, just now, goes
      before one under the ceiling that answered long ago and then failed four times, also long ago. */
  lemma SlowCanOutrank(cfg: PoolConfig, now: real)
    ensures var slowEvents, fastEvents := [Success(1600.0, now)], LongAgo(now - 601.0);
      var slow, fast := After(cfg, Fresh("slow", 1), slowEvents, 1), After(cfg, Fresh("fast", 1), fastEvents, 5);
      && slow.latencyMs == 1600.0 && fast.latencyMs == 1400.0
      && (now >= 0.0 && cfg.failThreshold >= 5 ==> slow.Healthy(now) && fast.Healthy(now))
      && Bucket(slow, now, 1400.0, 1500.0) > Bucket(fast, now, 1400.0, 1500.0)
  {
    var at := now - 601.0;
    var f1 := AfterSuccess(Fresh("fast", 1), 1400.0, at);
    var f2 := FailedOnce(cfg, f1, at);
    var f3 := FailedOnce(cfg, f2, at);
    var f4 := FailedOnce(cfg, f3, at);
    var f5 := FailedOnce(cfg, f4, at);
    AfterFive(cfg, Fresh("fast", 1), LongAgo(at));
    var slow := AfterSuccess(Fresh("slow", 1), 1600.0, now);
    assert After(cfg, Fresh("slow", 1), [Success(1600.0, now)], 1) == slow;
    hide AfterFailure, After;
    assert LatencyCost(1400.0, 1400.0) == 0.0 && LatencyCost(1600.0, 1400.0) == 0.025;
    assert Rank(slow, now, 1400.0, 1500.0) == 0.775;
    assert f5.score == 0.4096 && Rank(f5, now, 1400.0, 1500.0) == 0.5596;
  }

  lemma FailedOnce(cfg: PoolConfig, p: Provider, at: real) returns (after: Provider)
    requires p.score >= 0.0 && p.timeoutRate == 0.0 && !p.permanent
    ensures after == AfterFailure(cfg, p, RPC_ERROR, at)
    ensures after.score == p.score * 0.8 && after.timeoutRate == 0.0 && after.latencyMs == p.latencyMs
    ensures after.lastSuccess == p.lastSuccess && after.lastFailure == Some(at) && !after.permanent
    ensures after.failStreak == p.failStreak + 1
    ensures p.failStreak + 1 < cfg.failThreshold ==> after.disabledUntil == p.disabledUntil
  {
    after := AfterFailure(cfg, p, RPC_ERROR, at);
  }

  function LongAgo(at: real): seq<Event> {
    var failed := Failure(RPC_ERROR, at);
    [Success(1400.0, at), failed, failed, failed, failed]
  }

  lemma AfterFive(cfg: PoolConfig, p: Provider, events: seq<Event>)
    requires |events| == 5
    ensures After(cfg, p, events, 5)
      == StepProvider(cfg, StepProvider(cfg, StepProvider(cfg, StepProvider(cfg, StepProvider(cfg, p, events[0]),
                      events[1]), events[2]), events[3]), events[4])
  {
    hide StepProvider;
    assert After(cfg, p, events, 1) == StepProvider(cfg, p, events[0]);
    assert After(cfg, p, events, 3) == StepProvider(cfg, After(cfg, p, events, 2), events[2]);
  }

  /** The rank to one decimal, in tenths. */
  function Bucket(p: Provider, now: real, bestLatencyMs: real, slowLatencyMs: real): int {
    RoundHalfEven(Rank(p, now, bestLatencyMs, slowLatencyMs) * 10.0)
  }

  /** Rounding takes the nearest whole number, and the even one of two. */
  lemma RoundsToNearest(x: real, n: int)
    ensures RoundHalfEven(x) == n
            <==> AbsReal(x - n as real) < 0.5 || (AbsReal(x - n as real) == 0.5 && n % 2 == 0)
  {
  }

  lemma RoundingOrder(x: real, y: real)
    ensures x >= y ==> RoundHalfEven(x) >= RoundHalfEven(y)
    ensures x > y + 1.0 ==> RoundHalfEven(x) > RoundHalfEven(y)
  {
  }

  /** Buckets follow the rank: none is inverted, and ranks more than a tenth apart are never in one bucket. */
  lemma BucketsFollowRank(p: Provider, q: Provider, now: real, best: real, slow: real)
    ensures Rank(p, now, best, slow) >= Rank(q, now, best, slow)
            ==> Bucket(p, now, best, slow) >= Bucket(q, now, best, slow)
    ensures Rank(p, now, best, slow) > Rank(q, now, best, slow) + 0.1
            ==> Bucket(p, now, best, slow) > Bucket(q, now, best, slow)
    ensures AbsReal(Rank(p, now, best, slow) - Bucket(p, now, best, slow) as real / 10.0) <= 0.05
  {
    hide Rank;
    RoundingOrder(Rank(p, now, best, slow) * 10.0, Rank(q, now, best, slow) * 10.0);
  }

  /** With no limit set on the latency nobody is marked down for being beyond it. */
  lemma UnlimitedRank(p: Provider, now: real, best: real, slow: real)
    requires slow <= 0.0
    ensures Rank(p, now, best, slow) == Rank(p, now, best, p.latencyMs)
  {
    hide LatencyCost, RecencyBonus, StabilityBonus;
  }

  /** Least positive latency, zero when no provider has one. */
  function BestLatency(ps: seq<Provider>): real {
    if ps == [] then 0.0
    else
      var rest, l := BestLatency(ps[..|ps| - 1]), ps[|ps| - 1].latencyMs;
      if l > 0.0 && (rest == 0.0 || l < rest) then l else rest
  }

  /** The yardstick of the latency term: the least latency any provider has shown, zero while none has. */
  lemma {:induction false} BestLatencyIsLeast(ps: seq<Provider>)
    requires forall i :: 0 <= i < |ps| ==> ps[i].latencyMs >= 0.0
    ensures forall i :: 0 <= i < |ps| && ps[i].latencyMs > 0.0 ==> 0.0 < BestLatency(ps) <= ps[i].latencyMs
    ensures if BestLatency(ps) == 0.0 then forall i :: 0 <= i < |ps| ==> ps[i].latencyMs == 0.0
            else exists i :: 0 <= i < |ps| && ps[i].latencyMs == BestLatency(ps)
  {
    if ps != [] {
      var rest := ps[..|ps| - 1];
      BestLatencyIsLeast(rest);
      if BestLatency(rest) != 0.0 {
        var i :| 0 <= i < |rest| && rest[i].latencyMs == BestLatency(rest);
        assert ps[i].latencyMs == BestLatency(rest);
      }
    }
  }

  /** What the order of providers is decided by: the clock and the yardsticks of the ranking. */
  datatype Yardstick = Yardstick(now: real, bestLatencyMs: real, slowLatencyMs: real) {
    function BucketOf(p: Provider): int {
      Bucket(p, now, bestLatencyMs, slowLatencyMs)
    }

    /** a may stand before b: lower tier first, then higher bucket. */
    predicate NotAfter(a: Provider, b: Provider) {
      a.tier < b.tier || (a.tier == b.tier && BucketOf(a) >= BucketOf(b))
    }
  }

  function Insert(y: Yardstick, p: Provider, sorted: seq<Provider>): seq<Provider> {
    if sorted == [] || y.NotAfter(p, sorted[0]) then [p] + sorted
    else [sorted[0]] + Insert(y, p, sorted[1..])
  }

  /** Stable: an earlier provider goes before a later one of the same key. */
  function Sorted(y: Yardstick, ps: seq<Provider>): seq<Provider> {
    if ps == [] then [] else Insert(y, ps[0], Sorted(y, ps[1..]))
  }

  function HealthyOnes(ps: seq<Provider>, now: real): seq<Provider> {
    if ps == [] then []
    else HealthyOnes(ps[..|ps| - 1], now) + (if ps[|ps| - 1].Healthy(now) then [ps[|ps| - 1]] else [])
  }

  function Rotated(ps: seq<Provider>, cursor: nat): seq<Provider>
    requires cursor <= |ps|
  {
    ps[cursor..] + ps[..cursor]
  }

  /** The non-retired provider nearest recovery, a paid one when two are equally near. */
  function Soonest(ps: seq<Provider>): Option<Provider> {
    if ps == [] then None
    else
      var rest, p := Soonest(ps[..|ps| - 1]), ps[|ps| - 1];
      if p.permanent then rest
      else if rest.None? || p.disabledUntil < rest.value.disabledUntil
              || (p.disabledUntil == rest.value.disabledUntil && p.tier < rest.value.tier) then Some(p)
      else rest
  }

  function Urls(ps: seq<Provider>): (urls: seq<string>)
    ensures |urls| == |ps| && forall i :: 0 <= i < |urls| ==> urls[i] == ps[i].url
  {
    if ps == [] then [] else Urls(ps[..|ps| - 1]) + [ps[|ps| - 1].url]
  }

  /** The providers to try, best first. */
  function Order(cfg: PoolConfig, ps: seq<Provider>, cursor: nat, now: real): seq<Provider>
    requires cursor <= |ps|
  {
    var healthy := HealthyOnes(Rotated(ps, cursor), now);
    if healthy != [] then Sorted(Yardstick(now, BestLatency(healthy), cfg.slowLatencyMs), healthy)
    else
      var probe := Soonest(ps);
      if probe.None? then [] else [probe.value]
  }

  // ── what the order guarantees ──

  ghost predicate DistinctUrls(ps: seq<Provider>) {
    forall i, j :: 0 <= i < j < |ps| ==> ps[i].url != ps[j].url
  }

  ghost predicate InOrder(y: Yardstick, ps: seq<Provider>) {
    forall i, j :: 0 <= i < j < |ps| ==> y.NotAfter(ps[i], ps[j])
  }

  lemma {:induction false} InsertMembers(y: Yardstick, p: Provider, s: seq<Provider>)
    ensures forall q :: q in Insert(y, p, s) <==> q == p || q in s
    ensures |Insert(y, p, s)| == |s| + 1
    decreases |s|
  {
    hide Yardstick.NotAfter;
    if s != [] && !y.NotAfter(p, s[0]) {
      InsertMembers(y, p, s[1..]);
      assert s == [s[0]] + s[1..];
    }
  }

  lemma {:induction false} InsertKeepsOrder(y: Yardstick, p: Provider, s: seq<Provider>)
    requires InOrder(y, s)
    ensures InOrder(y, Insert(y, p, s))
    decreases |s|
  {
    hide Yardstick.BucketOf;
    if s != [] && !y.NotAfter(p, s[0]) {
      InsertKeepsOrder(y, p, s[1..]);
      InsertMembers(y, p, s[1..]);
      var rest := Insert(y, p, s[1..]);
      forall k | 0 <= k < |rest| ensures y.NotAfter(s[0], rest[k]) {
        assert rest[k] in rest;
      }
    }
  }

  lemma {:induction false} InsertKeepsDistinct(y: Yardstick, p: Provider, s: seq<Provider>)
    requires DistinctUrls(s) && forall q :: q in s ==> q.url != p.url
    ensures DistinctUrls(Insert(y, p, s))
    decreases |s|
  {
    hide Yardstick.NotAfter;
    if s != [] && !y.NotAfter(p, s[0]) {
      InsertKeepsDistinct(y, p, s[1..]);
      InsertMembers(y, p, s[1..]);
      var rest := Insert(y, p, s[1..]);
      forall k | 0 <= k < |rest| ensures rest[k].url != s[0].url {
        assert rest[k] in rest;
      }
    }
  }

  lemma {:induction false} SortedIsOrdered(y: Yardstick, ps: seq<Provider>)
    ensures InOrder(y, Sorted(y, ps)) && |Sorted(y, ps)| == |ps|
    ensures forall q :: q in Sorted(y, ps) <==> q in ps
    ensures DistinctUrls(ps) ==> DistinctUrls(Sorted(y, ps))
    decreases |ps|
  {
    hide Yardstick.NotAfter;
    if ps != [] {
      SortedIsOrdered(y, ps[1..]);
      InsertKeepsOrder(y, ps[0], Sorted(y, ps[1..]));
      InsertMembers(y, ps[0], Sorted(y, ps[1..]));
      if DistinctUrls(ps) {
        InsertKeepsDistinct(y, ps[0], Sorted(y, ps[1..]));
      }
      assert ps == [ps[0]] + ps[1..];
    }
  }

  lemma {:induction false} HealthyOnesMembers(ps: seq<Provider>, now: real)
    ensures forall q :: q in HealthyOnes(ps, now) <==> q in ps && q.Healthy(now)
    ensures DistinctUrls(ps) ==> DistinctUrls(HealthyOnes(ps, now))
    decreases |ps|
  {
    if ps != [] {
      var rest := ps[..|ps| - 1];
      HealthyOnesMembers(rest, now);
      assert ps == rest + [ps[|ps| - 1]];
      var kept := HealthyOnes(rest, now);
      if DistinctUrls(ps) {
        forall k | 0 <= k < |kept| ensures kept[k].url != ps[|ps| - 1].url {
          assert kept[k] in rest;
        }
      }
    }
  }

  lemma RotatedMembers(ps: seq<Provider>, cursor: nat)
    requires cursor <= |ps|
    ensures forall q :: q in Rotated(ps, cursor) <==> q in ps
    ensures DistinctUrls(ps) ==> DistinctUrls(Rotated(ps, cursor))
  {
    assert ps == ps[..cursor] + ps[cursor..];
  }

  lemma {:induction false} SoonestIsSoonest(ps: seq<Provider>)
    ensures Soonest(ps).None? <==> forall q :: q in ps ==> q.permanent
    ensures Soonest(ps).Some? ==>
      var p := Soonest(ps).value;
      p in ps && !p.permanent
      && forall q :: q in ps && !q.permanent ==>
           p.disabledUntil < q.disabledUntil || (p.disabledUntil == q.disabledUntil && p.tier <= q.tier)
    decreases |ps|
  {
    if ps != [] {
      SoonestIsSoonest(ps[..|ps| - 1]);
      assert ps == ps[..|ps| - 1] + [ps[|ps| - 1]];
    }
  }

  /** Paid ones before the rest, and of either the higher bucket first. */
  ghost predicate PaidThenBest(ps: seq<Provider>, now: real, best: real, slow: real) {
    forall i, j :: 0 <= i < j < |ps| ==>
      && ps[i].tier <= ps[j].tier
      && (ps[i].tier == ps[j].tier ==> Bucket(ps[i], now, best, slow) >= Bucket(ps[j], now, best, slow))
  }

  lemma InOrderMeans(y: Yardstick, ps: seq<Provider>)
    ensures InOrder(y, ps) ==> PaidThenBest(ps, y.now, y.bestLatencyMs, y.slowLatencyMs)
  {
    hide Bucket;
  }

  /** The order lists exactly the healthy providers, each once, all paid ones first and by falling bucket
      within a tier; with none healthy, the one non-retired provider nearest recovery; and nothing exactly
      when all are retired. */
  lemma OrderIsBestFirst(cfg: PoolConfig, ps: seq<Provider>, cursor: nat, now: real)
    requires cursor <= |ps| && DistinctUrls(ps)
    ensures var order := Order(cfg, ps, cursor, now);
      && DistinctUrls(order) && (forall q :: q in order ==> q in ps && !q.permanent)
      && (order == [] <==> forall q :: q in ps ==> q.permanent)
      && ((exists q :: q in ps && q.Healthy(now)) ==>
          (forall q :: q in order <==> q in ps && q.Healthy(now))
          && PaidThenBest(order, now, BestLatency(HealthyOnes(Rotated(ps, cursor), now)), cfg.slowLatencyMs))
      && ((forall q :: q in ps ==> !q.Healthy(now)) && order != [] ==>
          |order| == 1 && forall q :: q in ps && !q.permanent ==>
            order[0].disabledUntil < q.disabledUntil
            || (order[0].disabledUntil == q.disabledUntil && order[0].tier <= q.tier))
  {
    hide Sorted, HealthyOnes, Rotated, Soonest, BestLatency, Yardstick.NotAfter;
    var rotated := Rotated(ps, cursor);
    var healthy := HealthyOnes(rotated, now);
    RotatedMembers(ps, cursor);
    HealthyOnesMembers(rotated, now);
    SoonestIsSoonest(ps);
    SortedIsOrdered(Yardstick(now, BestLatency(healthy), cfg.slowLatencyMs), healthy);
    InOrderMeans(Yardstick(now, BestLatency(healthy), cfg.slowLatencyMs), Order(cfg, ps, cursor, now));
    hide InOrder, PaidThenBest;
    assert healthy == [] <==> forall q :: q !in healthy by {
      if healthy != [] {
        assert healthy[0] in healthy;
      }
    }
  }

  /** The members of one key, in their order. */
  function OfKey(y: Yardstick, ps: seq<Provider>, tier: nat, bucket: int): seq<Provider> {
    if ps == [] then []
    else (if ps[0].tier == tier && y.BucketOf(ps[0]) == bucket then [ps[0]] else []) + OfKey(y, ps[1..], tier, bucket)
  }

  lemma {:induction false} InsertKeepsTurns(y: Yardstick, p: Provider, s: seq<Provider>, tier: nat, bucket: int)
    requires InOrder(y, s)
    ensures OfKey(y, Insert(y, p, s), tier, bucket) == OfKey(y, [p] + s, tier, bucket)
    decreases |s|
  {
    hide Yardstick.BucketOf;
    assert ([p] + s)[1..] == s;
    if s != [] && !y.NotAfter(p, s[0]) {
      InsertKeepsTurns(y, p, s[1..], tier, bucket);
      assert ([p] + s[1..])[1..] == s[1..];
      var inserted := Insert(y, p, s);
      assert inserted[1..] == Insert(y, p, s[1..]);
    }
  }

  /** Providers that rank alike are tried in rotation order, so the round-robin start decides among them. */
  lemma {:induction false} EqualsKeepTheirTurn(y: Yardstick, ps: seq<Provider>, tier: nat, bucket: int)
    ensures OfKey(y, Sorted(y, ps), tier, bucket) == OfKey(y, ps, tier, bucket)
    decreases |ps|
  {
    hide Yardstick.BucketOf, Yardstick.NotAfter;
    if ps != [] {
      EqualsKeepTheirTurn(y, ps[1..], tier, bucket);
      SortedIsOrdered(y, ps[1..]);
      InsertKeepsTurns(y, ps[0], Sorted(y, ps[1..]), tier, bucket);
      assert ([ps[0]] + Sorted(y, ps[1..]))[1..] == Sorted(y, ps[1..]);
    }
  }

  // ── the pool object ──

  /** Position of the provider with this URL, or the number of providers. */
  function ByUrl(ps: seq<Provider>, url: string): (i: nat)
    ensures i <= |ps|
    ensures i < |ps| ==> ps[i].url == url
    ensures forall j :: 0 <= j < i ==> ps[j].url != url
  {
    if ps == [] then 0 else if ps[0].url == url then 0 else 1 + ByUrl(ps[1..], url)
  }

  class RpcProviderPool {
    const cfg: PoolConfig
    var providers: seq<Provider>
    var cursor: nat

    constructor (cfg: PoolConfig, urls: seq<string>, primaryUrls: set<string>)
      requires forall i, j :: 0 <= i < j < |urls| ==> urls[i] != urls[j]
      ensures this.cfg == cfg && cursor == 0
      ensures |providers| == |urls| && DistinctUrls(providers)
      ensures forall i :: 0 <= i < |urls| ==> providers[i] == Fresh(urls[i], if urls[i] in primaryUrls then 0 else 1)
    {
      this.cfg := cfg;
      cursor := 0;
      providers := seq(|urls|, i requires 0 <= i < |urls| => Fresh(urls[i], if urls[i] in primaryUrls then 0 else 1));
    }

    method NextOrder(now: real) returns (urls: seq<string>)
      requires cursor <= |providers|
      modifies this`cursor
      ensures urls == Urls(Order(cfg, providers, old(cursor), now))
      ensures providers != [] ==> cursor == (old(cursor) + 1) % |providers|
      ensures providers == [] ==> cursor == old(cursor)
    {
      hide Sorted, Yardstick.NotAfter;
      if providers == [] {
        return [];
      }
      var n := |providers|;
      var rotated := Rotated(providers, cursor);
      cursor := (cursor + 1) % n;
      var healthy: seq<Provider> := [];
      for i := 0 to n
        invariant healthy == HealthyOnes(rotated[..i], now)
      {
        assert rotated[..i + 1][..i] == rotated[..i];
        if rotated[i].Healthy(now) {
          healthy := healthy + [rotated[i]];
        }
      }
      assert rotated[..n] == rotated;
      if healthy != [] {
        return Urls(Sorted(Yardstick(now, BestLatency(healthy), cfg.slowLatencyMs), healthy));
      }
      var probe := Soonest(providers);
      urls := if probe.None? then [] else [probe.value.url];
    }

    method RecordSuccess(url: string, latencyMs: real, now: real)
      modifies this`providers
      ensures var i := ByUrl(old(providers), url);
        providers == if i < |old(providers)|
          then old(providers)[i := AfterSuccess(old(providers)[i], latencyMs, now)] else old(providers)
    {
      var i := ByUrl(providers, url);
      if i == |providers| {
        return;
      }
      var p := providers[i];
      p := p.(score := MinReal(1.0, p.score * 0.8 + 0.2));
      if latencyMs > 0.0 {
        p := p.(latencyMs := if p.latencyMs == 0.0 then latencyMs else p.latencyMs * 0.8 + latencyMs * 0.2);
      }
      p := p.(timeoutRate := p.timeoutRate * 0.8, failStreak := 0, streakHasNonTimeout := false);
      p := p.(cooldown := 0.0, disabledUntil := 0.0, permanent := false, lastSuccess := Some(now));
      providers := providers[i := p];
    }

    method RecordFailure(url: string, kind: ErrorKind, now: real)
      modifies this`providers
      ensures var i := ByUrl(old(providers), url);
        providers == if i < |old(providers)|
          then old(providers)[i := AfterFailure(cfg, old(providers)[i], kind, now)] else old(providers)
    {
      var i := ByUrl(providers, url);
      if i == |providers| {
        return;
      }
      var p := Counted(providers[i], kind, now);
      if kind == UNAUTHORIZED {
        providers := providers[i := if p.permanent then p else Retired(p, now)];
        return;
      }
      if cfg.permanentFailThreshold > 0 && kind.IsHard() && p.failStreak >= cfg.permanentFailThreshold && !p.permanent {
        providers := providers[i := Retired(p, now)];
        return;
      }
      if p.failStreak >= Threshold(cfg, p.streakHasNonTimeout) && p.disabledUntil <= now {
        var cooldown := NextCooldown(cfg, p, kind);
        p := p.(cooldown := cooldown, disabledUntil := now + cooldown);
      }
      providers := providers[i := p];
    }
  }
}
