/** The governance gates and the bounded memory of accepted levels (core/governance.py). */
module Governance {
  import opened Prelude
  import opened Models
  import opened RealArith
  import Calendar

  datatype GovernanceConfig = GovernanceConfig(
    cooldownMinutesAfterLoss: int,
    duplicateLevelTolerancePct: real,
    duplicateLevelWindowHours: int,
    maxTradesPerDay: int,
    maxConsecutiveLosses: int,
    dailyDdLimit: real,
    weeklyDdLimit: real,
    sessionStartHourUtc: int,
    sessionEndHourUtc: int,
    noTradeWindowsUtc: seq<(int, int)>)

  datatype GovernanceRuntimeState = GovernanceRuntimeState(
    tradesToday: int,
    consecutiveLosses: int,
    dailyDdPct: real,
    weeklyDdPct: real,
    lastTradeAt: Option<int>,
    lastLossAt: Option<int>)

  datatype Level = Level(at: int, price: real)

  // The accepted levels are kept in a deque of this length.
  const MAX_LEVELS: nat := 200

  const LEVEL_FLOOR: real := 0.000000001

  function Cooldown(config: GovernanceConfig): int {
    config.cooldownMinutesAfterLoss * Calendar.MINUTE
  }

  function Window(config: GovernanceConfig): int {
    config.duplicateLevelWindowHours * Calendar.HOUR
  }

  predicate WithinSession(config: GovernanceConfig, now: int) {
    config.sessionStartHourUtc <= Calendar.HourOfDay(now) <= config.sessionEndHourUtc
  }

  predicate InNoTradeWindow(config: GovernanceConfig, now: int) {
    exists w | w in config.noTradeWindowsUtc :: w.0 <= Calendar.HourOfDay(now) <= w.1
  }

  /** The gates that come before the duplicate-level check. */
  predicate PassesGates(config: GovernanceConfig, state: GovernanceRuntimeState, now: int) {
    && state.dailyDdPct < config.dailyDdLimit
    && state.weeklyDdPct < config.weeklyDdLimit
    && state.consecutiveLosses < config.maxConsecutiveLosses
    && state.tradesToday < config.maxTradesPerDay
    && WithinSession(config, now)
    && !InNoTradeWindow(config, now)
    && (state.lastLossAt.Some? ==> now - state.lastLossAt.value >= Cooldown(config))
  }

  predicate TooClose(config: GovernanceConfig, existing: real, entry: real) {
    Abs(entry - existing) / Max(Abs(existing), LEVEL_FLOOR) <= config.duplicateLevelTolerancePct
  }

  /** Drops levels from the front while they lie before the horizon. */
  function DropExpired(levels: seq<Level>, horizon: int): seq<Level> {
    if |levels| > 0 && levels[0].at < horizon then DropExpired(levels[1..], horizon) else levels
  }

  /** Appending to a bounded deque pushes the oldest level out. */
  function AppendBounded(levels: seq<Level>, level: Level): seq<Level> {
    if |levels| >= MAX_LEVELS then levels[|levels| - MAX_LEVELS + 1..] + [level] else levels + [level]
  }

  datatype GovernanceOutcome = GovernanceOutcome(approved: bool, levels: seq<Level>)

  /** One evaluation: the verdict and the deque it leaves behind. */
  function Evaluated(config: GovernanceConfig, levels: seq<Level>, state: GovernanceRuntimeState, now: int,
                     entry: real): GovernanceOutcome {
    if !PassesGates(config, state, now) then GovernanceOutcome(false, levels)
    else
      var kept := DropExpired(levels, now - Window(config));
      if exists l | l in kept :: TooClose(config, l.price, entry) then GovernanceOutcome(false, kept)
      else GovernanceOutcome(true, AppendBounded(kept, Level(now, entry)))
  }

  function ComputeRr(direction: Direction, entry: real, stop: real, takeProfit: real): real {
    var risk := Abs(entry - stop);
    if risk <= 0.0 then 0.0
    else (if direction.Long? then takeProfit - entry else entry - takeProfit) / risk
  }

  function ToExecutable(candidate: SignalCandidate): ExecutableSignal {
    ExecutableSignal(
      candidate.signalId, candidate.timestamp, candidate.direction, candidate.entryReference,
      candidate.invalidationLevel, candidate.tpReference1, candidate.tpReference2,
      ComputeRr(candidate.direction, candidate.entryReference, candidate.invalidationLevel, candidate.tpReference1))
  }

  // ---------------------------------------------------------------- the gates in plain terms

  /** Which evaluations get past the gates: both drawdowns and the streak below their limits, a trade left for today,
      an hour of the UTC day inside the session and outside every no-trade window, both ends included, and the
      cooldown, in minutes, over since the last loss. */
  lemma GatesInPlainTerms(config: GovernanceConfig, state: GovernanceRuntimeState, now: int)
    ensures var hour := (now - Calendar.DayStart(now)) / 3_600_000_000;
            PassesGates(config, state, now) <==>
              && state.dailyDdPct < config.dailyDdLimit && state.weeklyDdPct < config.weeklyDdLimit
              && state.consecutiveLosses < config.maxConsecutiveLosses && state.tradesToday < config.maxTradesPerDay
              && config.sessionStartHourUtc <= hour && hour <= config.sessionEndHourUtc
              && (forall w | w in config.noTradeWindowsUtc :: hour < w.0 || hour > w.1)
              && (state.lastLossAt.None?
                  || now >= state.lastLossAt.value + config.cooldownMinutesAfterLoss * 60_000_000)
  {
    Calendar.DayHolds(now);
    assert (now - Calendar.DayStart(now)) / 3_600_000_000 == Calendar.HourOfDay(now);
  }

  /** Past the gates an entry is refused exactly when a level accepted within the last window, in hours, is within the
      tolerance of it, relative to that level; what was accepted longer ago is forgotten from the front. */
  lemma DuplicatesInPlainTerms(config: GovernanceConfig, levels: seq<Level>, state: GovernanceRuntimeState, now: int,
                               entry: real)
    requires PassesGates(config, state, now) && forall i, j | 0 <= i < j < |levels| :: levels[i].at <= levels[j].at
    ensures !Evaluated(config, levels, state, now, entry).approved
       <==> exists l | l in levels ::
              && l.at >= now - config.duplicateLevelWindowHours * 3_600_000_000
              && Near(l.price, entry, config.duplicateLevelTolerancePct)
  {
    hide TooClose, Near, PassesGates;
    var horizon := now - Window(config);
    KeepsRecent(levels, horizon);
    forall l | l in levels
      ensures TooClose(config, l.price, entry) <==> Near(l.price, entry, config.duplicateLevelTolerancePct)
    {
      NearIsTooClose(config, l.price, entry);
    }
  }

  /** Two hundred accepted levels are remembered; one more pushes out the oldest. */
  lemma RemembersInPlainTerms(levels: seq<Level>, level: Level)
    requires |levels| <= 200
    ensures |levels| < 200 ==> AppendBounded(levels, level) == levels + [level]
    ensures |levels| == 200 ==> AppendBounded(levels, level) == levels[1..] + [level]
  {
  }

  /** Two prices within a fraction of the first. */
  predicate Near(price: real, other: real, fraction: real) {
    var size := if price >= 0.0 then price else -price;
    var base := if size < 0.000000001 then 0.000000001 else size;
    -Times(fraction, base) <= other - price <= Times(fraction, base)
  }

  lemma NearIsTooClose(config: GovernanceConfig, price: real, entry: real)
    ensures TooClose(config, price, entry) <==> Near(price, entry, config.duplicateLevelTolerancePct)
  {
    QuotientAgainst(Abs(entry - price), Max(Abs(price), LEVEL_FLOOR), config.duplicateLevelTolerancePct);
    hide Times;
  }

  lemma {:induction false} KeepsRecent(levels: seq<Level>, horizon: int)
    requires forall i, j | 0 <= i < j < |levels| :: levels[i].at <= levels[j].at
    ensures forall l :: l in DropExpired(levels, horizon) <==> l in levels && l.at >= horizon
  {
    if |levels| > 0 && levels[0].at < horizon {
      KeepsRecent(levels[1..], horizon);
      assert levels == [levels[0]] + levels[1..];
    } else {
      forall l | l in levels ensures l.at >= horizon {
        var i :| 0 <= i < |levels| && levels[i] == l;
        assert i > 0 ==> levels[0].at <= levels[i].at;
      }
    }
  }

  /** The reward-to-risk ratio: times the distance to the stop it is what the first target gains. */
  lemma RewardToRisk(candidate: SignalCandidate)
    ensures var x := ToExecutable(candidate);
            var risk := if x.entryPrice >= x.stopLoss then x.entryPrice - x.stopLoss else x.stopLoss - x.entryPrice;
            && x.entryPrice == candidate.entryReference && x.stopLoss == candidate.invalidationLevel
            && x.takeProfit1 == candidate.tpReference1 && x.direction == candidate.direction
            && (risk > 0.0 ==>
                  x.rrRatio * risk == candidate.direction.Signed(candidate.tpReference1 - candidate.entryReference))
            && (risk == 0.0 ==> x.rrRatio == 0.0)
  {
    var risk := Abs(candidate.entryReference - candidate.invalidationLevel);
    if risk > 0.0 {
      QuotientTimes(if candidate.direction.Long? then candidate.tpReference1 - candidate.entryReference
                    else candidate.entryReference - candidate.tpReference1, risk);
    }
  }

  class GovernanceLayer {
    const config: GovernanceConfig
    var acceptedLevels: seq<Level>

    constructor (config: GovernanceConfig)
      ensures this.config == config && acceptedLevels == []
    {
      this.config := config;
      acceptedLevels := [];
    }

    method Evaluate(state: GovernanceRuntimeState, candidate: SignalCandidate) returns (approved: bool)
      modifies this
      ensures GovernanceOutcome(approved, acceptedLevels)
           == Evaluated(config, old(acceptedLevels), state, candidate.timestamp, candidate.entryReference)
    {
      var now := candidate.timestamp;
      if state.dailyDdPct >= config.dailyDdLimit {
        return false;
      }
      if state.weeklyDdPct >= config.weeklyDdLimit {
        return false;
      }
      if state.consecutiveLosses >= config.maxConsecutiveLosses {
        return false;
      }
      if state.tradesToday >= config.maxTradesPerDay {
        return false;
      }
      if !WithinSession(config, now) {
        return false;
      }
      if InNoTradeWindow(config, now) {
        return false;
      }
      if state.lastLossAt.Some? {
        var delta := now - state.lastLossAt.value;
        if delta < Cooldown(config) {
          return false;
        }
      }
      var duplicate := IsDuplicateLevel(candidate.entryReference, now);
      if duplicate {
        return false;
      }
      acceptedLevels := AppendBounded(acceptedLevels, Level(now, candidate.entryReference));
      return true;
    }

    method IsDuplicateLevel(entry: real, now: int) returns (duplicate: bool)
      modifies this
      ensures acceptedLevels == DropExpired(old(acceptedLevels), now - Window(config))
      ensures duplicate == exists l | l in acceptedLevels :: TooClose(config, l.price, entry)
    {
      var horizon := now - Window(config);
      while |acceptedLevels| > 0 && acceptedLevels[0].at < horizon
        invariant DropExpired(acceptedLevels, horizon) == DropExpired(old(acceptedLevels), horizon)
        decreases |acceptedLevels|
      {
        acceptedLevels := acceptedLevels[1..];
      }
      for i := 0 to |acceptedLevels|
        invariant acceptedLevels == DropExpired(old(acceptedLevels), horizon)
        invariant forall j | 0 <= j < i :: !TooClose(config, acceptedLevels[j].price, entry)
      {
        if TooClose(config, acceptedLevels[i].price, entry) {
          return true;
        }
      }
      return false;
    }
  }
}
