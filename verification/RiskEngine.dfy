/** Sizing, exit decisions and settlement arithmetic (core/risk_engine.py). */
module RiskEngine {
  import opened Prelude
  import opened Models
  import opened RealArith
  import opened FillModel
  import Calendar

  datatype RiskConfig = RiskConfig(
    riskPerTradePct: real,
    maxLeverage: int,
    highVolLeverage: int,
    minRr: real,
    maxOpenPositions: int,
    maxConsecutiveLosses: int,
    dailyDdLimit: real,
    weeklyDdLimit: real,
    maxHoldHours: int,
    highVolStopDistancePct: real,
    partialExitPct: real,
    trailingAtrMult: real)

  datatype RiskRuntimeState = RiskRuntimeState(consecutiveLosses: int, dailyDdPct: real, weeklyDdPct: real)

  datatype RiskRejection =
    | InvalidEquity
    | MaxOpenPositions
    | RrBelowMin
    | MaxConsecutiveLosses
    | DailyDdLimit
    | WeeklyDdLimit
    | InvalidStopDistance
    | NonPositiveSize

  datatype RiskDecision = Allowed(size: real, leverage: int) | Rejected(reason: RiskRejection)

  datatype ExitDecision = ExitDecision(
    shouldClose: bool,
    reason: Option<ExitReason>,
    exitPrice: Option<real>,
    partialPct: Option<real>)

  datatype Settlement = Settlement(exitPrice: real, pnlAbs: real, pnlR: real, mae: real, mfe: real,
                                   exitReason: ExitReason)

  function SelectLeverage(config: RiskConfig, signal: ExecutableSignal): int {
    if Abs(signal.entryPrice - signal.stopLoss) / Max(signal.entryPrice, TINY) >= config.highVolStopDistancePct
    then MinInt(config.highVolLeverage, config.maxLeverage)
    else config.maxLeverage
  }

  function Evaluate(config: RiskConfig, runtime: RiskRuntimeState, signal: ExecutableSignal, equity: real,
                    openPositions: nat): RiskDecision {
    if equity <= 0.0 then Rejected(InvalidEquity)
    else if openPositions >= config.maxOpenPositions then Rejected(MaxOpenPositions)
    else if signal.rrRatio < config.minRr then Rejected(RrBelowMin)
    else if runtime.consecutiveLosses >= config.maxConsecutiveLosses then Rejected(MaxConsecutiveLosses)
    else if runtime.dailyDdPct >= config.dailyDdLimit then Rejected(DailyDdLimit)
    else if runtime.weeklyDdPct >= config.weeklyDdLimit then Rejected(WeeklyDdLimit)
    else
      var stopDistance := Abs(signal.entryPrice - signal.stopLoss);
      if stopDistance <= 0.0 then Rejected(InvalidStopDistance)
      else
        var leverage := SelectLeverage(config, signal);
        var rawSize := equity * config.riskPerTradePct / stopDistance;
        var maxSize := equity * leverage as real / Max(signal.entryPrice, TINY);
        var size := Min(rawSize, maxSize);
        if size <= 0.0 then Rejected(NonPositiveSize) else Allowed(size, leverage)
  }

  lemma AllowedSize(config: RiskConfig, runtime: RiskRuntimeState, signal: ExecutableSignal, equity: real,
                    openPositions: nat)
    requires Evaluate(config, runtime, signal, equity, openPositions).Allowed?
    ensures var decision := Evaluate(config, runtime, signal, equity, openPositions);
            && decision.size > 0.0 && Abs(signal.entryPrice - signal.stopLoss) > 0.0
            && decision.size <= Notional(equity, config.riskPerTradePct) / Abs(signal.entryPrice - signal.stopLoss)
            && decision.size <= Notional(equity, decision.leverage as real) / Max(signal.entryPrice, TINY)
  {
  }

  /** The two caps a granted size obeys: what the stop can lose, and the leveraged notional. */
  lemma SizeIsCapped(config: RiskConfig, runtime: RiskRuntimeState, signal: ExecutableSignal, equity: real,
                     openPositions: nat)
    requires Evaluate(config, runtime, signal, equity, openPositions).Allowed?
    ensures var decision := Evaluate(config, runtime, signal, equity, openPositions);
            && decision.size > 0.0
            && Notional(Abs(signal.entryPrice - signal.stopLoss), decision.size) <= Notional(equity,
                  config.riskPerTradePct)
            && (signal.entryPrice > 0.0 ==>
                  Notional(signal.entryPrice, decision.size) <= Notional(equity, decision.leverage as real))
  {
    AllowedSize(config, runtime, signal, equity, openPositions);
    hide Evaluate, SelectLeverage, Notional;
    var decision := Evaluate(config, runtime, signal, equity, openPositions);
    var base := Max(signal.entryPrice, TINY);
    QuotientCaps(Abs(signal.entryPrice - signal.stopLoss), decision.size, Notional(equity, config.riskPerTradePct));
    QuotientCaps(base, decision.size, Notional(equity, decision.leverage as real));
    DearerCosts(signal.entryPrice, base, decision.size);
  }

  lemma QuotientCaps(price: real, size: real, cap: real)
    requires price > 0.0 && size <= cap / price
    ensures Notional(price, size) <= cap
  {
    ScaledBelow(price, size, cap);
  }

  lemma DearerCosts(price: real, dearer: real, size: real)
    requires price <= dearer && size >= 0.0
    ensures Notional(price, size) <= Notional(dearer, size)
  {
    ProductMonotone(price, dearer, size);
  }

  /** Who is let through: the limits hold, and there is a stop distance, a risk fraction and a leverage to size with. */
  lemma AllowedIff(config: RiskConfig, runtime: RiskRuntimeState, signal: ExecutableSignal, equity: real,
                   openPositions: nat)
    ensures Evaluate(config, runtime, signal, equity, openPositions).Allowed? <==>
              && equity > 0.0 && openPositions < config.maxOpenPositions && signal.rrRatio >= config.minRr
              && runtime.consecutiveLosses < config.maxConsecutiveLosses
              && runtime.dailyDdPct < config.dailyDdLimit && runtime.weeklyDdPct < config.weeklyDdLimit
              && signal.entryPrice != signal.stopLoss
              && config.riskPerTradePct > 0.0 && SelectLeverage(config, signal) > 0
  {
    if equity > 0.0 {
      PositiveQuotient(equity, config.riskPerTradePct, Abs(signal.entryPrice - signal.stopLoss));
      PositiveQuotient(equity, SelectLeverage(config, signal) as real, Max(signal.entryPrice, TINY));
    }
    hide SelectLeverage;
  }

  lemma PositiveQuotient(equity: real, part: real, d: real)
    requires equity > 0.0
    ensures d > 0.0 ==> (equity * part / d > 0.0 <==> part > 0.0)
  {
    if d > 0.0 {
      var q := equity * part / d;
      QuotientTimes(equity * part, d);
      if part > 0.0 {
        ProductStrict(0.0, part, equity);
        if q <= 0.0 {
          ProductMonotone(q, 0.0, d);
        }
      } else {
        ProductMonotone(part, 0.0, equity);
        if q > 0.0 {
          ProductStrict(0.0, q, d);
        }
      }
    }
  }

  /** How large an accepted position is: as large as both caps allow. It risks the whole risk fraction of the
      equity at its stop or uses the whole leverage, and any larger size would break that cap. */
  lemma SizeIsGreatest(config: RiskConfig, runtime: RiskRuntimeState, signal: ExecutableSignal, equity: real,
                       openPositions: nat)
    requires Evaluate(config, runtime, signal, equity, openPositions).Allowed?
    ensures var decision := Evaluate(config, runtime, signal, equity, openPositions);
            var distance, entry := Abs(signal.entryPrice - signal.stopLoss), Max(signal.entryPrice, 0.00000001);
            && Notional(distance, decision.size) <= Notional(equity, config.riskPerTradePct)
            && Notional(entry, decision.size) <= Notional(equity, decision.leverage as real)
            && (|| Notional(distance, decision.size) == Notional(equity, config.riskPerTradePct)
                || Notional(entry, decision.size) == Notional(equity, decision.leverage as real))
            && forall larger: real | larger > decision.size ::
                 || Notional(distance, larger) > Notional(equity, config.riskPerTradePct)
                 || Notional(entry, larger) > Notional(equity, decision.leverage as real)
  {
    AllowedSize(config, runtime, signal, equity, openPositions);
    SizeIsSmaller(config, runtime, signal, equity, openPositions);
    hide Evaluate, SelectLeverage, Notional;
    var decision := Evaluate(config, runtime, signal, equity, openPositions);
    var distance, entry := Abs(signal.entryPrice - signal.stopLoss), Max(signal.entryPrice, TINY);
    var risked, levered := Notional(equity, config.riskPerTradePct), Notional(equity, decision.leverage as real);
    QuotientCaps(distance, decision.size, risked);
    QuotientCaps(entry, decision.size, levered);
    if decision.size == risked / distance {
      QuotientMeets(distance, decision.size, risked);
    } else {
      QuotientMeets(entry, decision.size, levered);
    }
    forall larger: real | larger > decision.size
      ensures Notional(distance, larger) > risked || Notional(entry, larger) > levered
    {
      LargerCosts(distance, decision.size, larger);
      LargerCosts(entry, decision.size, larger);
    }
  }

  lemma SizeIsSmaller(config: RiskConfig, runtime: RiskRuntimeState, signal: ExecutableSignal, equity: real,
                      openPositions: nat)
    requires Evaluate(config, runtime, signal, equity, openPositions).Allowed?
    ensures var decision := Evaluate(config, runtime, signal, equity, openPositions);
            || decision.size == Notional(equity, config.riskPerTradePct) / Abs(signal.entryPrice - signal.stopLoss)
            || decision.size == Notional(equity, decision.leverage as real) / Max(signal.entryPrice, TINY)
  {
  }

  lemma QuotientMeets(price: real, size: real, cap: real)
    requires price > 0.0 && size == cap / price
    ensures Notional(price, size) == cap
  {
    QuotientTimes(cap, price);
  }

  lemma LargerCosts(price: real, size: real, larger: real)
    requires price > 0.0 && size < larger
    ensures Notional(price, size) < Notional(price, larger)
  {
    ProductStrict(size, larger, price);
  }

  /** The leverage: the configured maximum, but no more than the one for high volatility when the stop is at
      least that fraction of the entry away. */
  lemma LeverageFollowsStop(config: RiskConfig, runtime: RiskRuntimeState, signal: ExecutableSignal, equity: real,
                            openPositions: nat)
    requires Evaluate(config, runtime, signal, equity, openPositions).Allowed?
    ensures var leverage := Evaluate(config, runtime, signal, equity, openPositions).leverage;
            var wide := Abs(signal.entryPrice - signal.stopLoss)
                        >= Times(config.highVolStopDistancePct, Max(signal.entryPrice, 0.00000001));
            && leverage <= config.maxLeverage
            && (wide ==> leverage <= config.highVolLeverage
                         && (leverage == config.highVolLeverage || leverage == config.maxLeverage))
            && (!wide ==> leverage == config.maxLeverage)
  {
    hide Times;
    QuotientAgainst(Abs(signal.entryPrice - signal.stopLoss), Max(signal.entryPrice, TINY),
                    config.highVolStopDistancePct);
  }

  function EvaluateExit(config: RiskConfig, position: Position, now: int, latestHigh: real, latestLow: real,
                        latestClose: real, partialExitEnabled: bool, partialExitDone: bool): ExitDecision {
    var partialPct := Min(Max(config.partialExitPct, 0.0), 1.0);
    var allowPartial := partialExitEnabled && !partialExitDone && partialPct > 0.0;
    var stopped := if position.direction.Long? then latestLow <= position.stopLoss else latestHigh >= position.stopLoss;
    var reached :=
      if position.direction.Long? then latestHigh >= position.takeProfit1 else latestLow <= position.takeProfit1;
    if stopped then
      ExitDecision(true, Some(if partialExitDone then TrailingStop else StopLoss), Some(position.stopLoss), None)
    else if !partialExitDone && reached then
      if allowPartial && partialPct < 1.0
      then ExitDecision(true, Some(TakeProfitPartial), Some(position.takeProfit1), Some(partialPct))
      else ExitDecision(true, Some(TakeProfit), Some(position.takeProfit1), None)
    else if now - position.openedAt >= config.maxHoldHours * Calendar.HOUR then
      ExitDecision(true, Some(Timeout), Some(latestClose), None)
    else
      ExitDecision(false, None, None, None)
  }

  /** When a position closes, read off the candle and the position, in the order of caution: at the stop if the
      candle touches it, whatever else it touches; else at the first target if no partial exit was taken and the
      candle touches that; else at the close once the holding time in microseconds has passed; else not at all. */
  lemma ExitRules(config: RiskConfig, p: Position, now: int, high: real, low: real, close: real, partialDone: bool)
    ensures var exit := EvaluateExit(config, p, now, high, low, close, true, partialDone);
            var atStop := if p.direction.Long? then low <= p.stopLoss else high >= p.stopLoss;
            var atTarget := if p.direction.Long? then high >= p.takeProfit1 else low <= p.takeProfit1;
            var expired := now - p.openedAt >= config.maxHoldHours * 3_600_000_000;
            && (exit.reason == Some(StopLoss) <==> atStop && !partialDone)
            && (exit.reason == Some(TrailingStop) <==> atStop && partialDone)
            && (exit.reason == Some(TakeProfitPartial) <==>
                  !atStop && !partialDone && atTarget && 0.0 < config.partialExitPct < 1.0)
            && (exit.reason == Some(TakeProfit) <==>
                  !atStop && !partialDone && atTarget && !(0.0 < config.partialExitPct < 1.0))
            && (exit.reason == Some(Timeout) <==> !atStop && (partialDone || !atTarget) && expired)
            && (exit.shouldClose <==> exit.reason.Some?) && (exit.shouldClose <==> exit.exitPrice.Some?)
            && exit.reason != Some(EndOfBacktest)
            && (atStop ==> exit.exitPrice == Some(p.stopLoss))
            && (exit.reason == Some(TakeProfitPartial) || exit.reason == Some(TakeProfit) ==>
                  exit.exitPrice == Some(p.takeProfit1))
            && (exit.reason == Some(Timeout) ==> exit.exitPrice == Some(close))
            && (exit.reason == Some(TakeProfitPartial) ==> exit.partialPct == Some(config.partialExitPct))
  {
  }

  function PnlAbs(position: Position, exitPrice: real): real {
    if position.direction.Long? then (exitPrice - position.entryPrice) * position.size
    else (position.entryPrice - exitPrice) * position.size
  }

  function PnlR(position: Position, exitPrice: real): real {
    var riskPerUnit := Abs(position.entryPrice - position.stopLoss);
    if riskPerUnit <= 0.0 then 0.0
    else if position.direction.Long? then (exitPrice - position.entryPrice) / riskPerUnit
    else (position.entryPrice - exitPrice) / riskPerUnit
  }

  function LowestLow(path: seq<Candle>): real
    requires |path| > 0
  {
    if |path| == 1 then path[0].low else Min(LowestLow(path[..|path| - 1]), path[|path| - 1].low)
  }

  function HighestHigh(path: seq<Candle>): real
    requires |path| > 0
  {
    if |path| == 1 then path[0].high else Max(HighestHigh(path[..|path| - 1]), path[|path| - 1].high)
  }

  /** What a rise from one price to another is worth at this size. */
  function Climb(from: real, to: real, size: real): real {
    (to - from) * size
  }

  /** Maximum adverse and favourable excursion over the candles seen while the position was held. */
  function MaeMfe(position: Position, exitPrice: real, path: seq<Candle>): (real, real) {
    var low := if |path| > 0 then LowestLow(path) else exitPrice;
    var high := if |path| > 0 then HighestHigh(path) else exitPrice;
    if position.direction.Long?
    then (Max(Climb(low, position.entryPrice, position.size), 0.0),
          Max(Climb(position.entryPrice, high, position.size), 0.0))
    else (Max(Climb(position.entryPrice, high, position.size), 0.0),
          Max(Climb(low, position.entryPrice, position.size), 0.0))
  }

  lemma {:induction false} PathExtremes(path: seq<Candle>)
    requires |path| > 0
    ensures forall c | c in path :: LowestLow(path) <= c.low && c.high <= HighestHigh(path)
    ensures exists c | c in path :: c.low == LowestLow(path)
    ensures exists c | c in path :: c.high == HighestHigh(path)
  {
    var n := |path| - 1;
    assert path[n] in path;
    if n > 0 {
      PathExtremes(path[..n]);
      assert path == path[..n] + [path[n]];
    }
  }

  function Adverse(d: Direction, c: Candle): real {
    if d.Long? then c.low else c.high
  }

  function Favourable(d: Direction, c: Candle): real {
    if d.Long? then c.high else c.low
  }

  lemma PnlMonotone(position: Position, price: real, better: real)
    requires position.size >= 0.0 && position.direction.Signed(better - price) >= 0.0
    ensures PnlAbs(position, price) <= PnlAbs(position, better)
  {
    if position.direction.Long? {
      ProductMonotone(price - position.entryPrice, better - position.entryPrice, position.size);
    } else {
      ProductMonotone(position.entryPrice - price, position.entryPrice - better, position.size);
    }
  }

  /** The excursions are the worst loss and the best profit at any extreme of the path, or zero; each
      is reached at some candle unless it is zero. */
  lemma ExcursionsAreExtreme(position: Position, exitPrice: real, path: seq<Candle>)
    requires position.size >= 0.0 && |path| > 0
    ensures var (mae, mfe) := MaeMfe(position, exitPrice, path);
            && mae >= 0.0 && mfe >= 0.0
            && (forall c | c in path ::
                  && PnlAbs(position, Adverse(position.direction, c)) >= -mae
                  && PnlAbs(position, Favourable(position.direction, c)) <= mfe)
            && (mae > 0.0 ==> exists c | c in path :: PnlAbs(position, Adverse(position.direction, c)) == -mae)
            && (mfe > 0.0 ==> exists c | c in path :: PnlAbs(position, Favourable(position.direction, c)) == mfe)
  {
    hide LowestLow, HighestHigh, PnlAbs;
    PathExtremes(path);
    var (mae, mfe) := MaeMfe(position, exitPrice, path);
    var low :| low in path && low.low == LowestLow(path);
    var high :| high in path && high.high == HighestHigh(path);
    ExcursionsAsPnl(position, exitPrice, path);
    forall c | c in path
      ensures PnlAbs(position, Adverse(position.direction, c)) >= -mae
              && PnlAbs(position, Favourable(position.direction, c)) <= mfe
    {
      if position.direction.Long? {
        PnlMonotone(position, low.low, c.low);
        PnlMonotone(position, c.high, high.high);
      } else {
        PnlMonotone(position, high.high, c.high);
        PnlMonotone(position, c.low, low.low);
      }
    }
  }

  lemma ExcursionsAsPnl(position: Position, exitPrice: real, path: seq<Candle>)
    requires |path| > 0
    ensures var worst := if position.direction.Long? then LowestLow(path) else HighestHigh(path);
            var best := if position.direction.Long? then HighestHigh(path) else LowestLow(path);
            && MaeMfe(position, exitPrice, path).0 == Max(-PnlAbs(position, worst), 0.0)
            && MaeMfe(position, exitPrice, path).1 == Max(PnlAbs(position, best), 0.0)
  {
    hide LowestLow, HighestHigh, PnlAbs, Climb;
    ClimbAsPnl(position, LowestLow(path));
    ClimbAsPnl(position, HighestHigh(path));
  }

  lemma ClimbAsPnl(position: Position, price: real)
    ensures PnlAbs(position, price) == position.direction.Signed(Climb(position.entryPrice, price, position.size))
    ensures Climb(price, position.entryPrice, position.size) == -Climb(position.entryPrice, price, position.size)
  {
    ProductMirror(price, position.entryPrice, position.size);
  }

  function BuildSettlementMetrics(position: Position, exitPrice: real, reason: ExitReason,
                                  path: seq<Candle>): Settlement {
    var excursions := MaeMfe(position, exitPrice, path);
    Settlement(exitPrice, PnlAbs(position, exitPrice), PnlR(position, exitPrice), excursions.0, excursions.1, reason)
  }

  /** The reason given is the first limit that fails, in this order. */
  lemma RejectedForFirst(config: RiskConfig, runtime: RiskRuntimeState, signal: ExecutableSignal, equity: real,
                         openPositions: nat)
    ensures var decision := Evaluate(config, runtime, signal, equity, openPositions);
            var funded, room := equity > 0.0, openPositions < config.maxOpenPositions;
            var rewarding := signal.rrRatio >= config.minRr;
            var unbroken := runtime.consecutiveLosses < config.maxConsecutiveLosses;
            var today, week := runtime.dailyDdPct < config.dailyDdLimit, runtime.weeklyDdPct < config.weeklyDdLimit;
            && (decision == Rejected(InvalidEquity) <==> !funded)
            && (decision == Rejected(MaxOpenPositions) <==> funded && !room)
            && (decision == Rejected(RrBelowMin) <==> funded && room && !rewarding)
            && (decision == Rejected(MaxConsecutiveLosses) <==> funded && room && rewarding && !unbroken)
            && (decision == Rejected(DailyDdLimit) <==> funded && room && rewarding && unbroken && !today)
            && (decision == Rejected(WeeklyDdLimit) <==> funded && room && rewarding && unbroken && today && !week)
            && (decision == Rejected(InvalidStopDistance) <==>
                  funded && room && rewarding && unbroken && today && week && signal.entryPrice == signal.stopLoss)
  {
    hide SelectLeverage;
  }

  /** Profit in multiples of the risk of one unit: times that risk it is what one unit gains. */
  lemma MultipleOfRisk(p: Position, exitPrice: real)
    ensures p.entryPrice != p.stopLoss ==>
              Times(PnlR(p, exitPrice), Abs(p.entryPrice - p.stopLoss)) == p.direction.Signed(exitPrice - p.entryPrice)
    ensures p.entryPrice == p.stopLoss ==> PnlR(p, exitPrice) == 0.0
    ensures PnlAbs(p, exitPrice) == Times(p.direction.Signed(exitPrice - p.entryPrice), p.size)
  {
    var move, risk := p.direction.Signed(exitPrice - p.entryPrice), Abs(p.entryPrice - p.stopLoss);
    if risk != 0.0 {
      QuotientTimes(move, risk);
      assert PnlR(p, exitPrice) == move / risk;
      assert Times(move / risk, risk) == move;
    }
  }
}
