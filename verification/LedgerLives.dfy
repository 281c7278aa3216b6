/**
 The life of every position, told by the bars alone: it stays open while no bar touches its stop or target and
 its time is not up, sells its share at the first bar that touches the target, trails its stop behind the best
 price since then, and closes at the first bar that touches the stop or finds its time up.
 */
module LedgerLives {
  import opened Prelude
  import opened RealArith
  import opened Models
  import opened Funding
  import opened FillModel
  import opened RuntimeLimits
  import opened Ledger
  import opened LedgerShape
  import opened LedgerSettlement
  import opened LedgerRuns
  import Governance
  import LedgerFills
  import LedgerGates
  import RiskEngine

  // ---------------------------------------------------------------- what the bars say

  /** What is fixed about a position from its opening on. */
  datatype Life = Life(direction: Direction, openedAt: int, entry: real, stop: real, target: real, atr: real)

  predicate Touches(d: Direction, stop: real, candle: Candle) {
    if d.Long? then candle.low <= stop else candle.high >= stop
  }

  predicate Reaches(d: Direction, target: real, candle: Candle) {
    if d.Long? then candle.high >= target else candle.low <= target
  }

  predicate TimeIsUp(config: RunConfig, life: Life, now: int) {
    now - life.openedAt >= config.risk.maxHoldHours * 3_600_000_000
  }

  predicate SellsPart(config: RunConfig) {
    0.0 < config.risk.partialExitPct < 1.0
  }

  /** No bar after the opening and before the n-th gave a reason to sell. */
  ghost predicate QuietUntil(config: RunConfig, life: Life, bars: seq<Snapshot>, n: nat)
    requires n <= |bars|
  {
    forall k | 0 <= k < n && bars[k].timestamp > life.openedAt ::
      && !Touches(life.direction, life.stop, LatestCandle(bars[k]))
      && !Reaches(life.direction, life.target, LatestCandle(bars[k]))
      && !TimeIsUp(config, life, bars[k].timestamp)
  }

  /** The best price for the position over the bars from the m-th to before the n-th. */
  function BestPrice(d: Direction, bars: seq<Snapshot>, m: nat, n: nat): (best: real)
    requires m < n <= |bars|
    ensures forall k | m <= k < n ::
              if d.Long? then LatestCandle(bars[k]).high <= best else LatestCandle(bars[k]).low >= best
    ensures exists k | m <= k < n ::
              best == if d.Long? then LatestCandle(bars[k]).high else LatestCandle(bars[k]).low
  {
    var edge := if d.Long? then LatestCandle(bars[n - 1]).high else LatestCandle(bars[n - 1]).low;
    if n == m + 1 then edge
    else
      var before := BestPrice(d, bars, m, n - 1);
      if (if d.Long? then before < edge else edge < before) then edge else before
  }

  /** How far the stop stays behind: the configured multiple of the average range at entry. */
  function TrailsBy(mult: real, atr: real): real {
    Max(mult, 0.0) * Max(atr, 0.00000001)
  }

  /** The stop that trails the best price since the m-th bar: at the filled entry, or the multiple of the
      average range behind the best price if that is better. */
  function StopBehind(config: RunConfig, life: Life, bars: seq<Snapshot>, m: nat, n: nat): real
    requires m < n <= |bars|
  {
    var distance := TrailsBy(config.risk.trailingAtrMult, life.atr);
    if life.direction.Long? then Max(life.entry, BestPrice(life.direction, bars, m, n) - distance)
    else Min(life.entry, BestPrice(life.direction, bars, m, n) + distance)
  }

  /** The m-th bar is the one at which part of the position was sold. */
  ghost predicate SoldPartAt(config: RunConfig, life: Life, bars: seq<Snapshot>, m: nat)
    requires m < |bars|
  {
    && SellsPart(config) && bars[m].timestamp > life.openedAt && QuietUntil(config, life, bars, m)
    && !Touches(life.direction, life.stop, LatestCandle(bars[m]))
    && Reaches(life.direction, life.target, LatestCandle(bars[m]))
  }

  /** After the m-th bar and before the n-th no bar touched the trailing stop or found the time up. */
  ghost predicate TrailedUntil(config: RunConfig, life: Life, bars: seq<Snapshot>, m: nat, n: nat)
    requires m < n <= |bars|
  {
    forall k | m < k < n ::
      && !Touches(life.direction, StopBehind(config, life, bars, m, k + 1), LatestCandle(bars[k]))
      && !TimeIsUp(config, life, bars[k].timestamp)
  }

  // ---------------------------------------------------------------- what that means for a position

  function LifeOf(r: Record): Life {
    Life(r.position.direction, r.position.openedAt, r.position.entryPrice, r.initialStopLoss, r.position.takeProfit1,
         r.candidate.atr15m)
  }

  function LifeOfTrade(c: ClosedTradeRecord): Life {
    Life(c.trade.direction, c.trade.openedAt, c.trade.entryPrice, c.position.stopLoss, c.position.takeProfit1,
         c.candidate.atr15m)
  }

  /** Entry, stop and target are those of the candidate, the entry less favourable by the slippage. */
  ghost predicate AsSignalled(config: RunConfig, life: Life, c: SignalCandidate) {
    var bps := if config.entryOrderType.Limit? then config.fill.slippageBpsLimit else config.fill.slippageBpsMarket;
    && life.direction == c.direction && life.stop == c.invalidationLevel && life.target == c.tpReference1
    && life.entry == c.entryReference * (if c.direction.Long? then 1.0 + bps / 10000.0 else 1.0 - bps / 10000.0)
  }

  /** An open record that sold part at the m-th bar: where its stop is after n bars. */
  ghost predicate TrailsSince(config: RunConfig, bars: seq<Snapshot>, n: nat, r: Record, m: nat)
    requires m < n <= |bars|
  {
    && r.position.updatedAt == bars[m].timestamp
    && SoldPartAt(config, LifeOf(r), bars, m) && TrailedUntil(config, LifeOf(r), bars, m, n)
    && (if r.position.direction.Long? then r.highestHighSincePartial else r.lowestLowSincePartial)
       == Some(BestPrice(r.position.direction, bars, m, n))
    && r.position.stopLoss
       == (if n == m + 1 then r.position.entryPrice else StopBehind(config, LifeOf(r), bars, m, n))
  }

  /** Why a record is still open after n bars, and where its stop is. */
  ghost predicate StillOpen(config: RunConfig, bars: seq<Snapshot>, n: nat, r: Record)
    requires n <= |bars|
  {
    && r.atr15m == Max(r.candidate.atr15m, 0.0) && AsSignalled(config, LifeOf(r), r.candidate)
    && (if r.partialExitDone then exists m: nat :: m < n && TrailsSince(config, bars, n, r, m)
        else QuietUntil(config, LifeOf(r), bars, n) && r.position.stopLoss == r.initialStopLoss)
  }

  /** Why a trade was closed by rule at the k-th bar, without a partial exit before it. */
  ghost predicate ClosedWhole(config: RunConfig, bars: seq<Snapshot>, c: ClosedTradeRecord, k: nat)
    requires k < |bars|
  {
    var life, candle := LifeOfTrade(c), LatestCandle(bars[k]);
    var touched := Touches(life.direction, life.stop, candle);
    var reached := Reaches(life.direction, life.target, candle);
    && QuietUntil(config, life, bars, k)
    && match c.trade.exitReason
       case StopLoss => touched && LegsMake(config, c, None, life.stop)
       case TakeProfit => !touched && reached && !SellsPart(config) && LegsMake(config, c, None, life.target)
       case Timeout =>
         && !touched && !reached && TimeIsUp(config, life, bars[k].timestamp)
         && LegsMake(config, c, None, candle.close)
       case _ => false
  }

  /** Why a trade was closed by rule at the k-th bar, after part of it was sold at the m-th. */
  ghost predicate ClosedRest(config: RunConfig, bars: seq<Snapshot>, c: ClosedTradeRecord, m: nat, k: nat)
    requires m < k < |bars|
  {
    var life, candle := LifeOfTrade(c), LatestCandle(bars[k]);
    var stop := StopBehind(config, life, bars, m, k + 1);
    && SoldPartAt(config, life, bars, m) && TrailedUntil(config, life, bars, m, k)
    && match c.trade.exitReason
       case TrailingStop => Touches(life.direction, stop, candle) && LegsMake(config, c, Some(life.target), stop)
       case Timeout =>
         && !Touches(life.direction, stop, candle) && TimeIsUp(config, life, bars[k].timestamp)
         && LegsMake(config, c, Some(life.target), candle.close)
       case _ => false
  }

  /** What a leg of this size makes, sold at the market for a requested price. */
  function LegMakes(config: RunConfig, c: ClosedTradeRecord, size: real, price: real): real {
    var slip := config.fill.slippageBpsMarket / 10000.0;
    if c.trade.direction.Long? then (price * (1.0 - slip) - c.trade.entryPrice) * size
    else (c.trade.entryPrice - price * (1.0 + slip)) * size
  }

  /** The share of a position sold at the first target. */
  function FirstShare(config: RunConfig, size: real): real {
    size * config.risk.partialExitPct
  }

  /** The fees of a trade that made this much before costs: the entry at the rate of its order type, the exits at the
      taker rate. */
  ghost predicate FeesAre(config: RunConfig, c: ClosedTradeRecord, gross: real) {
    var entryRate := if config.entryOrderType.Limit? then config.fill.feeRateMaker else config.fill.feeRateTaker;
    var entered := Notional(c.trade.entryPrice, c.trade.size);
    var left := if c.trade.direction.Long? then entered + gross else entered - gross;
    c.trade.fees == Fee(entered, entryRate) + Fee(left, config.fill.feeRateTaker)
  }

  /** What the trade made before costs is what its legs made: all of it sold at the last price, or the configured
      share at the first and the rest at the last; fees and funding come off. */
  ghost predicate LegsMake(config: RunConfig, c: ClosedTradeRecord, first: Option<real>, last: real) {
    var share := FirstShare(config, c.trade.size);
    var gross :=
      if first.None? then LegMakes(config, c, c.trade.size, last)
      else LegMakes(config, c, share, first.value) + LegMakes(config, c, c.trade.size - share, last);
    && c.trade.pnlAbs == gross - c.trade.fees - c.trade.fundingPaid && FeesAre(config, c, gross)
    && AsSignalled(config, LifeOfTrade(c), c.candidate)
  }

  /** Why a trade was closed at the end: nothing else had closed its position by then. */
  ghost predicate ClosedAtEnd(config: RunConfig, bars: seq<Snapshot>, c: ClosedTradeRecord) {
    && |bars| > 0 && c.trade.closedAt == bars[|bars| - 1].timestamp
    && (|| (QuietUntil(config, LifeOfTrade(c), bars, |bars|) && LegsMake(config, c, None, bars[|bars| - 1].price))
        || exists m: nat | m < |bars| ::
             && SoldPartAt(config, LifeOfTrade(c), bars, m) && TrailedUntil(config, LifeOfTrade(c), bars, m, |bars|)
             && LegsMake(config, c, Some(c.position.takeProfit1), bars[|bars| - 1].price))
  }

  /** Every trade closed by rule closed when the bars said so. */
  ghost predicate ClosedOnCue(config: RunConfig, bars: seq<Snapshot>, c: ClosedTradeRecord) {
    exists k: nat | k < |bars| ::
      && bars[k].timestamp == c.trade.closedAt > c.trade.openedAt
      && (ClosedWhole(config, bars, c, k) || exists m: nat | m < k :: ClosedRest(config, bars, c, m, k))
  }

  /** Every trade was closed by the bar that called for it, or at the end because none had. */
  ghost predicate AllClosedRightly(config: RunConfig, bars: seq<Snapshot>, closed: seq<ClosedTradeRecord>) {
    forall i | 0 <= i < |closed| ::
      if closed[i].trade.exitReason.EndOfBacktest? then ClosedAtEnd(config, bars, closed[i])
      else ClosedOnCue(config, bars, closed[i])
  }

  // ---------------------------------------------------------------- the legs of a trade

  lemma LegIsPnl(config: RunConfig, c: ClosedTradeRecord, p: Position, price: real)
    requires p.direction == c.trade.direction && p.entryPrice == c.trade.entryPrice
    ensures RiskEngine.PnlAbs(p, FilledAt(price, Slippage(config.fill, Market), ExitSide(p.direction)))
         == LegMakes(config, c, p.size, price)
  {
  }

  lemma ShareIsPart(config: RunConfig, size: real)
    requires size > 0.0 && SellsPart(config)
    ensures Share(size, config.risk.partialExitPct) == FirstShare(config, size)
  {
    ProperPart(size, config.risk.partialExitPct);
  }

  lemma SettledLegs(config: RunConfig, r: Record, price: real, reason: ExitReason, now: int)
    requires Balanced(config, r) && Settle(config.fill, r, price, reason, now).Ok?
    requires (r.partialExitDone ==> SellsPart(config)) && AsSignalled(config, LifeOf(r), r.candidate)
    ensures var c := Settle(config.fill, r, price, reason, now).value;
            && LegsMake(config, c, if r.partialExitDone then Some(r.position.takeProfit1) else None, price)
            && LifeOfTrade(c) == LifeOf(r) && c.position.takeProfit1 == r.position.takeProfit1
            && c.trade.exitReason == reason && c.trade.closedAt == now && c.trade.openedAt == r.position.openedAt
  {
    hide Simulate, LegMakes, RiskEngine.PnlAbs, FilledAt, Slippage, FirstShare, Share, FeesAre, AsSignalled;
    SettledFields(config, r, price, reason, now);
    SettledFees(config, r, price, reason, now);
    hide MoneyBalances;
    var c := Settle(config.fill, r, price, reason, now).value;
    hide Settle, Gross;
    FillIs(config, r, price);
    LegIsPnl(config, c, r.position, price);
    if r.partialExitDone {
      ShareIsPart(config, r.initialSize);
      var sold := r.position.(size := Share(r.initialSize, config.risk.partialExitPct));
      LegIsPnl(config, c, sold, r.position.takeProfit1);
    }
  }

  lemma SettledFees(config: RunConfig, r: Record, price: real, reason: ExitReason, now: int)
    requires Balanced(config, r) && Settle(config.fill, r, price, reason, now).Ok?
    ensures var c := Settle(config.fill, r, price, reason, now).value;
            FeesAre(config, c, c.trade.pnlAbs + c.trade.fees + c.trade.fundingPaid)
  {
    hide Settle, Balanced, Notional, Fee, Simulate, ExitNotional, EffectivePrice;
    SettledFromNotional(config, r, price, reason, now);
  }

  lemma FillIs(config: RunConfig, r: Record, price: real)
    requires Simulate(config.fill, price, r.position.size, Market, ExitSide(r.position.direction)).Ok?
    ensures ExitFill(config, r, price).filledPrice
         == FilledAt(price, Slippage(config.fill, Market), ExitSide(r.position.direction))
  {
  }

  // ---------------------------------------------------------------- the trailing stop

  lemma MarkedStop(config: RunConfig, rows: seq<RawFunding>, r: Record, s: Snapshot)
    requires Balanced(config, r)
    ensures var m, candle := Marked(config, rows, r, s), LatestCandle(s);
            var distance := TrailsBy(config.risk.trailingAtrMult, r.atr15m);
            && m.atr15m == r.atr15m && LifeOf(m) == LifeOf(r) && m.position.updatedAt == r.position.updatedAt
            && (r.partialExitDone && r.position.direction.Long?
                && r.highestHighSincePartial.Some? && r.highestHighSincePartial.value > 0.0 ==>
                  var best := Max(r.highestHighSincePartial.value, candle.high);
                  m.highestHighSincePartial == Some(best)
                  && m.position.stopLoss == Max(r.position.stopLoss, best - distance))
            && (r.partialExitDone && r.position.direction.Short?
                && r.lowestLowSincePartial.Some? && r.lowestLowSincePartial.value > 0.0 ==>
                  var best := Min(r.lowestLowSincePartial.value, candle.low);
                  m.lowestLowSincePartial == Some(best)
                  && m.position.stopLoss == Min(r.position.stopLoss, best + distance))
  {
    hide FundingPaid, Notional, AppendCandle, MoneyBalances, QuantityBalances, ShareSold;
  }

  lemma BestPricePositive(d: Direction, bars: seq<Snapshot>, m: nat, n: nat)
    requires m < n <= |bars| && LedgerFills.PositiveBars(bars)
    ensures BestPrice(d, bars, m, n) > 0.0
  {
    hide BestPrice;
    assert forall k | m <= k < n :: LedgerFills.PositiveBar(bars[k]);
  }

  /** One more bar moves the best price and with it the stop. */
  lemma StopFollows(config: RunConfig, life: Life, bars: seq<Snapshot>, m: nat, n: nat, distance: real, stop: real)
    requires m < n < |bars| && distance == TrailsBy(config.risk.trailingAtrMult, life.atr)
    requires stop == if n == m + 1 then life.entry else StopBehind(config, life, bars, m, n)
    ensures var before, after := BestPrice(life.direction, bars, m, n), BestPrice(life.direction, bars, m, n + 1);
            var candle := LatestCandle(bars[n]);
            if life.direction.Long?
            then after == Max(before, candle.high)
                 && StopBehind(config, life, bars, m, n + 1) == Max(stop, after - distance)
            else after == Min(before, candle.low)
                 && StopBehind(config, life, bars, m, n + 1) == Min(stop, after + distance)
  {
  }

  lemma MarkedTrails(config: RunConfig, rows: seq<RawFunding>, bars: seq<Snapshot>, n: nat, r: Record, m: nat)
    requires m < n < |bars| && Balanced(config, r) && r.partialExitDone && LedgerFills.PositiveBars(bars)
    requires r.atr15m == Max(r.candidate.atr15m, 0.0) && TrailsSince(config, bars, n, r, m)
    ensures var r', d := Marked(config, rows, r, bars[n]), r.position.direction;
            && LifeOf(r') == LifeOf(r)
            && r'.position.stopLoss == StopBehind(config, LifeOf(r), bars, m, n + 1)
            && (if d.Long? then r'.highestHighSincePartial else r'.lowestLowSincePartial)
               == Some(BestPrice(d, bars, m, n + 1))
  {
    hide Marked, Balanced, BestPrice, StopBehind, SoldPartAt, TrailedUntil, LedgerFills.PositiveBars, LatestCandle;
    var d := r.position.direction;
    SameRange(config.risk.trailingAtrMult, r.candidate.atr15m);
    hide TrailsBy;
    BestPricePositive(d, bars, m, n);
    MarkedStop(config, rows, r, bars[n]);
    StopFollows(config, LifeOf(r), bars, m, n, TrailsBy(config.risk.trailingAtrMult, r.atr15m), r.position.stopLoss);
  }

  lemma SameRange(mult: real, atr: real)
    ensures TrailsBy(mult, Max(atr, 0.0)) == TrailsBy(mult, atr)
  {
    assert Max(Max(atr, 0.0), 0.00000001) == Max(atr, 0.00000001);
  }

  // ---------------------------------------------------------------- one bar

  /** What the exit rules say about a position at a bar, in the words of this module. */
  lemma ExitOnCue(config: RunConfig, r: Record, s: Snapshot)
    ensures var exit, life, candle := Exit(config, r, s), LifeOf(r), LatestCandle(s);
            var touched := Touches(life.direction, r.position.stopLoss, candle);
            var reached := Reaches(life.direction, life.target, candle);
            var done := r.partialExitDone;
            && (exit.reason == Some(StopLoss) <==> touched && !done)
            && (exit.reason == Some(TrailingStop) <==> touched && done)
            && (exit.reason == Some(TakeProfitPartial) <==> !touched && !done && reached && SellsPart(config))
            && (exit.reason == Some(TakeProfit) <==> !touched && !done && reached && !SellsPart(config))
            && (exit.reason == Some(Timeout) <==> !touched && (done || !reached) && TimeIsUp(config, life, s.timestamp))
            && exit.reason != Some(EndOfBacktest)
            && (exit.shouldClose <==> exit.reason.Some?) && (exit.shouldClose <==> exit.exitPrice.Some?)
            && (touched ==> exit.exitPrice == Some(r.position.stopLoss))
            && (exit.reason == Some(TakeProfitPartial) || exit.reason == Some(TakeProfit) ==>
                  exit.exitPrice == Some(life.target))
            && (exit.reason == Some(Timeout) ==> exit.exitPrice == Some(candle.close))
  {
    var candle := LatestCandle(s);
    RiskEngine.ExitRules(config.risk, r.position, s.timestamp, candle.high, candle.low, candle.close,
                         r.partialExitDone);
    hide RiskEngine.EvaluateExit;
  }

  lemma QuietGrows(config: RunConfig, life: Life, bars: seq<Snapshot>, n: nat)
    requires n < |bars| && QuietUntil(config, life, bars, n)
    requires !Touches(life.direction, life.stop, LatestCandle(bars[n]))
    requires !Reaches(life.direction, life.target, LatestCandle(bars[n]))
    requires !TimeIsUp(config, life, bars[n].timestamp)
    ensures QuietUntil(config, life, bars, n + 1)
  {
    hide Touches, Reaches, TimeIsUp, LatestCandle;
  }

  /** What a partial exit leaves. */
  lemma PartialOutcome(config: RunConfig, rows: seq<RawFunding>, r: Record, s: Snapshot)
    requires Balanced(config, r) && StepRecord(config, rows, r, s).Ok?
    requires Exit(config, Marked(config, rows, r, s), s).reason == Some(TakeProfitPartial)
    ensures StepRecord(config, rows, r, s).value.Kept?
    ensures var m, candle := Marked(config, rows, r, s), LatestCandle(s);
            var r' := StepRecord(config, rows, r, s).value.record;
            && r'.partialExitDone && LifeOf(r') == LifeOf(m) && r'.atr15m == m.atr15m && r'.candidate == m.candidate
            && r'.position.updatedAt == s.timestamp && r'.position.stopLoss == m.position.entryPrice
            && (if m.position.direction.Long? then r'.highestHighSincePartial else r'.lowestLowSincePartial)
               == Some(if m.position.direction.Long? then candle.high else candle.low)
  {
    var m := Marked(config, rows, r, s);
    MarkedKeeps(config, rows, r, s);
    PartialOnlyOnce(config, m, s);
    StepKeepsBalance(config, rows, r, s);
    ExitOnCue(config, m, s);
    hide Marked, Exit, Balanced, PartialQty, Simulate, RiskEngine.BuildSettlementMetrics, Notional, LatestCandle;
  }

  lemma BestOfOne(d: Direction, bars: seq<Snapshot>, m: nat)
    requires m < |bars|
    ensures BestPrice(d, bars, m, m + 1) == if d.Long? then LatestCandle(bars[m]).high else LatestCandle(bars[m]).low
  {
  }

  /** A position without a partial exit, through the n-th bar. */
  lemma StepWhole(config: RunConfig, rows: seq<RawFunding>, bars: seq<Snapshot>, n: nat, r: Record)
    requires n < |bars| && Balanced(config, r) && !r.partialExitDone && StillOpen(config, bars, n, r)
    requires r.position.openedAt < bars[n].timestamp && StepRecord(config, rows, r, bars[n]).Ok?
    ensures var outcome := StepRecord(config, rows, r, bars[n]).value;
            && (outcome.Kept? ==> StillOpen(config, bars, n + 1, outcome.record))
            && (outcome.Settled? ==>
                  && outcome.closed.trade.closedAt == bars[n].timestamp > outcome.closed.trade.openedAt
                  && ClosedWhole(config, bars, outcome.closed, n))
  {
    hide Touches, Reaches, TimeIsUp, SellsPart, LatestCandle, QuietUntil, Balanced, LegsMake, Marked, Exit, Settle;
    var s := bars[n];
    MarkedKeeps(config, rows, r, s);
    MarkedStop(config, rows, r, s);
    var m, outcome := Marked(config, rows, r, s), StepRecord(config, rows, r, s).value;
    ExitOnCue(config, m, s);
    var exit := Exit(config, m, s);
    if exit.reason == Some(TakeProfitPartial) {
      PartialOutcome(config, rows, r, s);
      BestOfOne(r.position.direction, bars, n);
      assert TrailsSince(config, bars, n + 1, outcome.record, n);
    } else if exit.shouldClose {
      SettledLegs(config, m, exit.exitPrice.value, exit.reason.value, s.timestamp);
    } else {
      QuietGrows(config, LifeOf(r), bars, n);
    }
  }

  lemma TrailGrows(config: RunConfig, life: Life, bars: seq<Snapshot>, m: nat, n: nat)
    requires m < n < |bars| && TrailedUntil(config, life, bars, m, n)
    requires !Touches(life.direction, StopBehind(config, life, bars, m, n + 1), LatestCandle(bars[n]))
    requires !TimeIsUp(config, life, bars[n].timestamp)
    ensures TrailedUntil(config, life, bars, m, n + 1)
  {
    hide Touches, StopBehind, TimeIsUp, LatestCandle;
  }

  /** A position after its partial exit at the m-th bar, through the n-th. */
  lemma StepRest(config: RunConfig, rows: seq<RawFunding>, bars: seq<Snapshot>, n: nat, r: Record, m: nat)
    requires m < n < |bars| && Balanced(config, r) && r.partialExitDone && LedgerFills.PositiveBars(bars)
    requires r.atr15m == Max(r.candidate.atr15m, 0.0) && TrailsSince(config, bars, n, r, m)
    requires AsSignalled(config, LifeOf(r), r.candidate)
    requires r.position.openedAt < bars[n].timestamp && StepRecord(config, rows, r, bars[n]).Ok?
    ensures var outcome := StepRecord(config, rows, r, bars[n]).value;
            && (outcome.Kept? ==>
                  && outcome.record.partialExitDone && TrailsSince(config, bars, n + 1, outcome.record, m)
                  && outcome.record.atr15m == Max(outcome.record.candidate.atr15m, 0.0)
                  && AsSignalled(config, LifeOf(outcome.record), outcome.record.candidate))
            && (outcome.Settled? ==>
                  && outcome.closed.trade.closedAt == bars[n].timestamp > outcome.closed.trade.openedAt
                  && ClosedRest(config, bars, outcome.closed, m, n))
  {
    hide Touches, Reaches, TimeIsUp, LatestCandle, Balanced, LegsMake, Marked, Exit, Settle, BestPrice, StopBehind;
    hide QuietUntil, LedgerFills.PositiveBars, TrailedUntil, AsSignalled;
    var s := bars[n];
    MarkedKeeps(config, rows, r, s);
    MarkedStop(config, rows, r, s);
    MarkedTrails(config, rows, bars, n, r, m);
    var marked := Marked(config, rows, r, s);
    ExitOnCue(config, marked, s);
    var exit := Exit(config, marked, s);
    if exit.shouldClose {
      SettledLegs(config, marked, exit.exitPrice.value, exit.reason.value, s.timestamp);
    } else {
      TrailGrows(config, LifeOf(r), bars, m, n);
    }
  }

  lemma StepOnCue(config: RunConfig, rows: seq<RawFunding>, bars: seq<Snapshot>, n: nat, r: Record)
    requires n < |bars| && Balanced(config, r) && StillOpen(config, bars, n, r) && LedgerFills.PositiveBars(bars)
    requires r.position.openedAt < bars[n].timestamp && StepRecord(config, rows, r, bars[n]).Ok?
    ensures var outcome := StepRecord(config, rows, r, bars[n]).value;
            && (outcome.Kept? ==> StillOpen(config, bars, n + 1, outcome.record))
            && (outcome.Settled? ==> ClosedOnCue(config, bars, outcome.closed))
  {
    hide StepRecord, Balanced, LedgerFills.PositiveBars, TrailsSince, QuietUntil, ClosedWhole, ClosedRest;
    if r.partialExitDone {
      var m: nat :| m < n && TrailsSince(config, bars, n, r, m);
      StepRest(config, rows, bars, n, r, m);
    } else {
      StepWhole(config, rows, bars, n, r);
    }
  }

  // ---------------------------------------------------------------- whole runs

  ghost predicate AllStillOpen(config: RunConfig, bars: seq<Snapshot>, n: nat, open: seq<Record>)
    requires n <= |bars|
  {
    forall i | 0 <= i < |open| ::
      StillOpen(config, bars, n, open[i]) && (n == 0 || open[i].position.openedAt <= bars[n - 1].timestamp)
  }

  ghost predicate AllOnCue(config: RunConfig, bars: seq<Snapshot>, closed: seq<ClosedTradeRecord>) {
    forall i | 0 <= i < |closed| :: ClosedOnCue(config, bars, closed[i])
  }

  lemma SweepOnCue(config: RunConfig, rows: seq<RawFunding>, bars: seq<Snapshot>, n: nat, open: seq<Record>)
    requires n < |bars| && AllBalanced(config, open) && AllStillOpen(config, bars, n, open)
    requires LedgerFills.PositiveBars(bars) && LedgerGates.StrictlyInOrder(bars)
    requires (n == 0 ==> open == []) && Sweep(config, rows, open, bars[n], |open|).Ok?
    ensures var swept := Sweep(config, rows, open, bars[n], |open|).value;
            AllStillOpen(config, bars, n + 1, swept.remaining) && AllOnCue(config, bars, swept.closed)
  {
    hide StepRecord, Sweep, Balanced, StillOpen, ClosedOnCue, LedgerFills.PositiveBars;
    SweepSources(config, rows, open, bars[n], |open|);
    forall i | 0 <= i < |open| && StepRecord(config, rows, open[i], bars[n]).Ok?
      ensures var outcome := StepRecord(config, rows, open[i], bars[n]).value;
              && (outcome.Kept? ==>
                    && StillOpen(config, bars, n + 1, outcome.record)
                    && outcome.record.position.openedAt <= bars[n].timestamp)
              && (outcome.Settled? ==> ClosedOnCue(config, bars, outcome.closed))
    {
      StepOnCue(config, rows, bars, n, open[i]);
      StepKeepsIdentity(config, rows, open[i], bars[n]);
    }
  }

  lemma NewIsOpen(config: RunConfig, bars: seq<Snapshot>, n: nat, b: Books, c: SignalCandidate, size: real,
                  leverage: int)
    requires n < |bars| && LedgerGates.StrictlyInOrder(bars)
    requires NewRecord(config, b, bars[n].timestamp, c, size, leverage).Ok?
    ensures var r := NewRecord(config, b, bars[n].timestamp, c, size, leverage).value;
            StillOpen(config, bars, n + 1, r) && r.position.openedAt == bars[n].timestamp
  {
    NewAsSignalled(config, b, bars[n].timestamp, c, size, leverage);
    hide Simulate, Touches, Reaches, TimeIsUp, LatestCandle, AsSignalled;
  }

  lemma NewAsSignalled(config: RunConfig, b: Books, now: int, c: SignalCandidate, size: real, leverage: int)
    requires NewRecord(config, b, now, c, size, leverage).Ok?
    ensures var r := NewRecord(config, b, now, c, size, leverage).value; AsSignalled(config, LifeOf(r), c)
  {
    hide Governance.ComputeRr, Fee;
  }

  lemma BarOnCue(config: RunConfig, rows: seq<RawFunding>, bars: seq<Snapshot>, n: nat, b: Books,
                 candidate: Option<SignalCandidate>)
    requires n < |bars| && AllBalanced(config, b.open) && AllStillOpen(config, bars, n, b.open)
    requires AllOnCue(config, bars, b.closed) && (n == 0 ==> b.open == [])
    requires LedgerFills.PositiveBars(bars) && LedgerGates.StrictlyInOrder(bars)
    requires Step(config, rows, b, bars[n], candidate).Ok?
    ensures var b' := Step(config, rows, b, bars[n], candidate).value.books;
            AllStillOpen(config, bars, n + 1, b'.open) && AllOnCue(config, bars, b'.closed)
  {
    hide Sweep, Booked, Decide, Balanced, StillOpen, ClosedOnCue, Gated, NewRecord, LedgerFills.PositiveBars;
    hide LedgerGates.StrictlyInOrder;
    var swept, mid, decided := StepShape(config, rows, b, bars[n], candidate);
    hide Step;
    SweepOnCue(config, rows, bars, n, b.open);
    BookedCloses(b, swept.closed);
    DecideShape(config, mid, bars[n].timestamp, candidate);
    if decided.decision.Executed? {
      var gate := Gated(config, mid, bars[n].timestamp, candidate);
      NewIsOpen(config, bars, n, mid, gate.candidate, gate.size, gate.leverage);
    }
  }

  /** At every bar of every run over positive bars with rising times each open position is open because no bar so far
      closed it, with its stop where the bars put it, and each trade was closed by the bar that called for it, at the
      price it called for. */
  lemma {:induction false} RunOnCue(config: RunConfig, rows: seq<RawFunding>, bars: seq<Snapshot>,
                                    candidates: seq<Option<SignalCandidate>>, n: nat)
    requires n <= |bars| == |candidates| && Run(config, rows, bars, candidates, n).Ok?
    requires LedgerFills.PositiveBars(bars) && LedgerGates.StrictlyInOrder(bars)
    ensures AllStillOpen(config, bars, n, Run(config, rows, bars, candidates, n).value.open)
    ensures AllOnCue(config, bars, Run(config, rows, bars, candidates, n).value.closed)
    ensures n == 0 ==> Run(config, rows, bars, candidates, n).value.open == []
  {
    hide Step, AllBalanced, TradesTell, StillOpen, ClosedOnCue, LedgerFills.PositiveBars, LedgerGates.StrictlyInOrder;
    if n > 0 {
      RunStep(config, rows, bars, candidates, n);
      RunOnCue(config, rows, bars, candidates, n - 1);
      RunTells(config, rows, bars, candidates, n - 1);
      var b := Run(config, rows, bars, candidates, n - 1).value;
      BarOnCue(config, rows, bars, n - 1, b, candidates[n - 1]);
    }
  }

  lemma ForcedAtEnd(config: RunConfig, rows: seq<RawFunding>, bars: seq<Snapshot>, r: Record)
    requires |bars| > 0 && Balanced(config, r) && StillOpen(config, bars, |bars|, r)
    requires ForceClosed(config, rows, r, bars[|bars| - 1].timestamp, bars[|bars| - 1].price).Ok?
    ensures ClosedAtEnd(config, bars,
                        ForceClosed(config, rows, r, bars[|bars| - 1].timestamp, bars[|bars| - 1].price).value)
  {
    hide Balanced, QuietUntil, TrailedUntil, Settle, ForceClosed, LegsMake, BestPrice, StopBehind, Touches, Reaches,
        TimeIsUp, LatestCandle;
    var last := bars[|bars| - 1];
    var forced := ForceClosedFrom(config, rows, r, last.timestamp, last.price);
    assert LifeOf(forced) == LifeOf(r);
    SettledLegs(config, forced, last.price, EndOfBacktest, last.timestamp);
  }

  /** So over every finished run each trade was closed by rule on cue, or at the end because nothing closed it
      before. */
  lemma FinalOnCue(config: RunConfig, rows: seq<RawFunding>, bars: seq<Snapshot>,
                   candidates: seq<Option<SignalCandidate>>, end: Books)
    requires |bars| == |candidates| && Final(config, rows, bars, candidates) == Ok(end)
    requires LedgerFills.PositiveBars(bars) && LedgerGates.StrictlyInOrder(bars)
    ensures AllClosedRightly(config, bars, end.closed)
  {
    hide Run, AllBalanced, TradesTell, StillOpen, ClosedAtEnd, LedgerFills.PositiveBars, LedgerGates.StrictlyInOrder;
    hide ForceClosedAll, ForceClosed, Booked, ClosedOnCue;
    RunOnCue(config, rows, bars, candidates, |bars|);
    RunTells(config, rows, bars, candidates, |bars|);
    var b := Run(config, rows, bars, candidates, |bars|).value;
    OnCueByRule(config, bars, b.closed);
    if |bars| > 0 && |b.open| > 0 {
      var last := bars[|bars| - 1];
      var closed := ForceClosedAll(config, rows, b.open, last.timestamp, last.price, |b.open|).value;
      ForceSources(config, rows, b.open, last.timestamp, last.price, |b.open|);
      BookedCloses(b, closed);
      forall k | 0 <= k < |closed|
        ensures closed[k].trade.exitReason.EndOfBacktest? && ClosedAtEnd(config, bars, closed[k])
      {
        OneBalanced(config, b.open, k);
        ForceClosedTells(config, rows, b.open[k], last.timestamp, last.price);
        ForcedAtEnd(config, rows, bars, b.open[k]);
      }
    }
  }

  lemma OnCueByRule(config: RunConfig, bars: seq<Snapshot>, closed: seq<ClosedTradeRecord>)
    requires AllOnCue(config, bars, closed)
    ensures forall i | 0 <= i < |closed| ::
              ClosedOnCue(config, bars, closed[i]) && !closed[i].trade.exitReason.EndOfBacktest?
  {
    hide QuietUntil, TrailedUntil, LegsMake, SoldPartAt, BestPrice, StopBehind, Touches, Reaches, TimeIsUp,
        LatestCandle;
    forall i | 0 <= i < |closed| ensures !closed[i].trade.exitReason.EndOfBacktest? {
      assert ClosedOnCue(config, bars, closed[i]);
    }
  }
}
