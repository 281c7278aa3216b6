/**
 The life of a position and the books of a backtest, as functions on values
 (backtest/backtest_runner.py): what one bar does to one open position, what it does to the
 whole ledger, and what a run over a stream of bars leaves behind. The candidates of a run are a
 parameter, one per bar, so that everything proved here holds whatever produces the signals.
 */
module Ledger {
  import opened Prelude
  import opened Models
  import opened Funding
  import opened FillModel
  import opened RuntimeLimits
  import Performance
  import Calendar
  import Governance
  import RiskEngine

  datatype RunConfig = RunConfig(
    initialEquity: real,
    entryOrderType: OrderType,
    fill: FillModelConfig,
    risk: RiskEngine.RiskConfig,
    governance: Governance.GovernanceConfig)
  {
    function StartingEquity(): real {
      Max(initialEquity, TINY)
    }
  }

  datatype Record = Record(
    tradeId: nat,
    position: Position,
    candidate: SignalCandidate,
    executable: ExecutableSignal,
    entryFee: real,
    entrySlippageBps: real,
    initialSize: real,
    initialStopLoss: real,
    atr15m: real,
    totalFees: real,
    fundingPaid: real,
    realizedPnlAbsGross: real,
    closedQty: real,
    exitNotionalSum: real,
    partialExitDone: bool,
    trailingStop: Option<real>,
    highestHighSincePartial: Option<real>,
    lowestLowSincePartial: Option<real>,
    lastFundingAccrualAt: Option<int>,
    slippageSamples: seq<real>,
    candlesPath: seq<Candle>)

  /** What a bar makes of an open position. `Dropped` is the branch that would lose a position
      without recording a trade. */
  datatype Outcome = Kept(record: Record) | Dropped | Settled(closed: ClosedTradeRecord)

  datatype EquityPoint = EquityPoint(at: int, equity: real)

  datatype Books = Books(
    open: seq<Record>,
    closed: seq<ClosedTradeRecord>,
    events: seq<PnlEvent>,
    opens: seq<int>,
    equity: real,
    curve: seq<EquityPoint>,
    levels: seq<Governance.Level>,
    signalCounter: nat,
    positionCounter: nat,
    tradeCounter: nat)

  datatype Decision = NoSignal | GovernanceRejected | RiskRejected | Executed

  function Opened(config: RunConfig, now: int, candidate: SignalCandidate, executable: ExecutableSignal,
                  size: real, leverage: int, positionId: nat, tradeId: nat): Result<Record> {
    var fill :- Simulate(config.fill, executable.entryPrice, size, config.entryOrderType,
                         EntrySide(executable.direction));
    Ok(Record(
      tradeId,
      Position(positionId, executable.direction, PositionStatus.Open, fill.filledPrice, size, leverage,
               executable.stopLoss, executable.takeProfit1, executable.takeProfit2, now, now, executable.signalId),
      candidate, executable, fill.feePaid, fill.slippageBps, size, executable.stopLoss, Max(candidate.atr15m, 0.0),
      fill.feePaid, 0.0, 0.0, 0.0, 0.0, false, None, None, None, Some(now), [fill.slippageBps], []))
  }

  function LastAccrual(r: Record): int {
    if r.lastFundingAccrualAt.Some? then r.lastFundingAccrualAt.value else r.position.openedAt
  }

  function Accrued(r: Record, rows: seq<RawFunding>, until: int): Record {
    if until <= LastAccrual(r) then r
    else
      var notional := Max(Notional(r.position.entryPrice, r.position.size), 0.0);
      if notional <= 0.0 then r.(lastFundingAccrualAt := Some(until))
      else r.(fundingPaid := r.fundingPaid + FundingPaid(r.position.direction, notional, LastAccrual(r), until, rows),
              lastFundingAccrualAt := Some(until))
  }

  function AppendCandle(path: seq<Candle>, candle: Candle): seq<Candle> {
    if |path| > 0 && path[|path| - 1].openTime >= candle.openTime then path else path + [candle]
  }

  /** A missing extreme, or one equal to zero, is replaced by the latest one. */
  function OrLatest(extreme: Option<real>, latest: real): real {
    if extreme.Some? && extreme.value != 0.0 then extreme.value else latest
  }

  function TrailDistance(atr15m: real, trailingAtrMult: real): real {
    Max(trailingAtrMult, 0.0) * Max(atr15m, TINY)
  }

  function Trailed(r: Record, latestHigh: real, latestLow: real, trailingAtrMult: real): Record {
    if !r.partialExitDone then r
    else
      var current := if r.trailingStop.Some? then r.trailingStop.value else r.position.stopLoss;
      if r.position.direction.Long? then
        var high := Max(OrLatest(r.highestHighSincePartial, latestHigh), latestHigh);
        var stop := Max(current, high - TrailDistance(r.atr15m, trailingAtrMult));
        r.(highestHighSincePartial := Some(high), trailingStop := Some(stop), position := r.position.(stopLoss := stop))
      else
        var low := Min(OrLatest(r.lowestLowSincePartial, latestLow), latestLow);
        var stop := Min(current, low + TrailDistance(r.atr15m, trailingAtrMult));
        r.(lowestLowSincePartial := Some(low), trailingStop := Some(stop), position := r.position.(stopLoss := stop))
  }

  function EffectivePrice(notional: real, qty: real): real {
    notional / Max(qty, TINY)
  }

  function Average(samples: seq<real>): real
    requires |samples| > 0
  {
    SumBy(samples, Performance.Identity()) / |samples| as real
  }

  /** Net profit in multiples of what the initial stop put at risk. */
  function PerRisk(net: real, entryPrice: real, stopLoss: real, size: real): real {
    net / Max(Notional(Abs(entryPrice - stopLoss), size), TINY)
  }

  /** Settles what is left of a position and writes its trade. */
  function Settle(fill: FillModelConfig, r: Record, price: real, reason: ExitReason,
                  now: int): Result<ClosedTradeRecord> {
    var exit :- Simulate(fill, price, r.position.size, Market, ExitSide(r.position.direction));
    var settlement := RiskEngine.BuildSettlementMetrics(r.position, exit.filledPrice, reason, r.candlesPath);
    var fees := r.totalFees + exit.feePaid;
    var net := r.realizedPnlAbsGross + settlement.pnlAbs - fees - r.fundingPaid;
    var totalQty := r.closedQty + r.position.size;
    var totalNotional := r.exitNotionalSum + Notional(settlement.exitPrice, r.position.size);
    var effectivePrice := EffectivePrice(totalNotional, totalQty);
    var whole := r.position.(size := r.initialSize, stopLoss := r.initialStopLoss);
    var metrics := RiskEngine.BuildSettlementMetrics(whole, effectivePrice, reason, r.candlesPath);
    Ok(ClosedTradeRecord(
      whole.(status := Closed, updatedAt := now), r.candidate, r.executable,
      TradeLog(
        r.tradeId, r.position.signalId, r.position.openedAt, now, r.position.direction, r.candidate.regime,
        r.candidate.confluenceScore, r.position.entryPrice, effectivePrice, r.initialSize, fees,
        Average(r.slippageSamples + [exit.slippageBps]), net,
        PerRisk(net, r.position.entryPrice, r.initialStopLoss, r.initialSize), metrics.mae, metrics.mfe,
        metrics.exitReason, r.fundingPaid)))
  }

  function PartialQty(config: RunConfig, r: Record, decision: RiskEngine.ExitDecision): real {
    var pct := if decision.partialPct.Some? then decision.partialPct.value else config.risk.partialExitPct;
    Share(r.position.size, pct)
  }

  function Share(size: real, pct: real): real {
    Max(Min(size * pct, size), 0.0)
  }

  /** Books the sale of part of a position. */
  function Sold(r: Record, qty: real, exit: FillResult): Record {
    var settlement := RiskEngine.BuildSettlementMetrics(r.position.(size := qty), exit.filledPrice, TakeProfitPartial,
                                                        r.candlesPath);
    r.(realizedPnlAbsGross := r.realizedPnlAbsGross + settlement.pnlAbs,
       totalFees := r.totalFees + exit.feePaid,
       closedQty := r.closedQty + qty,
       exitNotionalSum := r.exitNotionalSum + Notional(settlement.exitPrice, qty),
       slippageSamples := r.slippageSamples + [exit.slippageBps])
  }

  /** A position after part of it was sold: smaller, its stop at the filled entry, trailing from here on. */
  function Reduced(r: Record, qty: real, exit: FillResult, now: int, latestHigh: real, latestLow: real): Record {
    Sold(r, qty, exit).(
      position := r.position.(size := Max(r.position.size - qty, 0.0), status := PositionStatus.Partial,
                              stopLoss := r.position.entryPrice, updatedAt := now),
      partialExitDone := true,
      trailingStop := Some(r.position.entryPrice),
      highestHighSincePartial := if r.position.direction.Long? then Some(latestHigh) else r.highestHighSincePartial,
      lowestLowSincePartial := if r.position.direction.Long? then r.lowestLowSincePartial else Some(latestLow))
  }

  function TakePartial(config: RunConfig, r: Record, decision: RiskEngine.ExitDecision, now: int,
                       candle: Candle): Result<Outcome>
    requires decision.exitPrice.Some?
  {
    var qty := PartialQty(config, r, decision);
    if qty <= 0.0 then Ok(Kept(r))
    else
      var exit :- Simulate(config.fill, decision.exitPrice.value, qty, Market, ExitSide(r.position.direction));
      var reduced := Reduced(r, qty, exit, now, candle.high, candle.low);
      if reduced.position.size <= 0.0 then Ok(Dropped) else Ok(Kept(reduced))
  }

  /** The candle the exit rules look at; without one the bar's price stands in. */
  function LatestCandle(s: Snapshot): Candle {
    if s.lastCandle.Some? then s.lastCandle.value
    else Candle(s.timestamp - 15 * Calendar.MINUTE, s.price, s.price, s.price)
  }

  /** Bookkeeping at every bar before the exit decision: funding, candle path, trailing stop. */
  function Marked(config: RunConfig, rows: seq<RawFunding>, r: Record, s: Snapshot): Record {
    var candle := LatestCandle(s);
    var accrued := Accrued(r, rows, s.timestamp);
    Trailed(accrued.(candlesPath := AppendCandle(accrued.candlesPath, candle)), candle.high, candle.low,
            config.risk.trailingAtrMult)
  }

  function Exit(config: RunConfig, r: Record, s: Snapshot): RiskEngine.ExitDecision {
    var candle := LatestCandle(s);
    RiskEngine.EvaluateExit(config.risk, r.position, s.timestamp, candle.high, candle.low, candle.close, true,
                            r.partialExitDone)
  }

  /** One bar in the life of an open position. */
  function StepRecord(config: RunConfig, rows: seq<RawFunding>, r: Record, s: Snapshot): Result<Outcome> {
    var marked := Marked(config, rows, r, s);
    var decision := Exit(config, marked, s);
    if !decision.shouldClose || decision.exitPrice.None? || decision.reason.None? then Ok(Kept(marked))
    else if decision.reason == Some(TakeProfitPartial) then
      TakePartial(config, marked, decision, s.timestamp, LatestCandle(s))
    else
      var closed :- Settle(config.fill, marked, decision.exitPrice.value, decision.reason.value, s.timestamp);
      Ok(Settled(closed))
  }

  datatype Swept = Swept(remaining: seq<Record>, closed: seq<ClosedTradeRecord>)

  function Filed(swept: Swept, outcome: Outcome): Swept {
    match outcome
    case Kept(r) => swept.(remaining := swept.remaining + [r])
    case Dropped => swept
    case Settled(c) => swept.(closed := swept.closed + [c])
  }

  /** One bar over the first n open positions. */
  function Sweep(config: RunConfig, rows: seq<RawFunding>, open: seq<Record>, s: Snapshot, n: nat): Result<Swept>
    requires n <= |open|
  {
    if n == 0 then Ok(Swept([], []))
    else
      var swept :- Sweep(config, rows, open, s, n - 1);
      var outcome :- StepRecord(config, rows, open[n - 1], s);
      Ok(Filed(swept, outcome))
  }

  function Events(closed: seq<ClosedTradeRecord>): seq<PnlEvent> {
    seq(|closed|, i requires 0 <= i < |closed| => PnlEvent(closed[i].trade.closedAt, closed[i].trade.pnlAbs))
  }

  /** Books newly closed trades. */
  function Booked(b: Books, closed: seq<ClosedTradeRecord>): Books {
    b.(closed := b.closed + closed,
       events := b.events + Events(closed),
       equity := b.equity + SumBy(Pnls(closed), Performance.Identity()))
  }

  function AfterClosing(config: RunConfig, rows: seq<RawFunding>, b: Books, s: Snapshot): Result<Books> {
    var swept :- Sweep(config, rows, b.open, s, |b.open|);
    Ok(Booked(b, swept.closed).(open := swept.remaining))
  }

  /** How far a candidate gets: turned away by governance or by the risk engine, or let through
      with a size and a leverage. */
  datatype Gate =
    | NoCandidate
    | GovernanceStop(levels: seq<Governance.Level>)
    | RiskStop(levels: seq<Governance.Level>)
    | Pass(levels: seq<Governance.Level>, candidate: SignalCandidate, size: real, leverage: int)

  function Gated(config: RunConfig, b: Books, now: int, candidate: Option<SignalCandidate>): Gate {
    if candidate.None? then NoCandidate
    else
      var runtime := Runtime(now, b.opens, b.closed, b.events, config.StartingEquity());
      var c := candidate.value.(signalId := b.signalCounter + 1);
      var verdict := Governance.Evaluated(config.governance, b.levels, runtime.ForGovernance(), c.timestamp,
                                          c.entryReference);
      if !verdict.approved then GovernanceStop(verdict.levels)
      else
        match RiskEngine.Evaluate(config.risk, runtime.ForRisk(), Governance.ToExecutable(c), b.equity, |b.open|)
        case Rejected(_) => RiskStop(verdict.levels)
        case Allowed(size, leverage) => Pass(verdict.levels, c, size, leverage)
  }

  function NewRecord(config: RunConfig, b: Books, now: int, c: SignalCandidate, size: real,
                     leverage: int): Result<Record> {
    Opened(config, now, c, Governance.ToExecutable(c), size, leverage, b.positionCounter + 1, b.tradeCounter + 1)
  }

  datatype Decided = Decided(books: Books, decision: Decision)

  /** The gates and, if they let the candidate through, the opening of a position. */
  function Decide(config: RunConfig, b: Books, now: int, candidate: Option<SignalCandidate>): Result<Decided> {
    match Gated(config, b, now, candidate)
    case NoCandidate => Ok(Decided(b, NoSignal))
    case GovernanceStop(levels) =>
        Ok(Decided(b.(signalCounter := b.signalCounter + 1, levels := levels), GovernanceRejected))
    case RiskStop(levels) => Ok(Decided(b.(signalCounter := b.signalCounter + 1, levels := levels), RiskRejected))
    case Pass(levels, c, size, leverage) =>
      var record :- NewRecord(config, b, now, c, size, leverage);
      Ok(Decided(
        b.(signalCounter := b.signalCounter + 1, levels := levels, open := b.open + [record], opens := b.opens + [now],
           positionCounter := b.positionCounter + 1, tradeCounter := b.tradeCounter + 1),
        Executed))
  }

  /** One bar of the run: close, decide, note the equity. */
  function Step(config: RunConfig, rows: seq<RawFunding>, b: Books, s: Snapshot,
                candidate: Option<SignalCandidate>): Result<Decided> {
    var closed :- AfterClosing(config, rows, b, s);
    var decided :- Decide(config, closed, s.timestamp, candidate);
    var point := EquityPoint(s.timestamp, decided.books.equity);
    Ok(decided.(books := decided.books.(curve := decided.books.curve + [point])))
  }

  function Start(config: RunConfig): Books {
    Books([], [], [], [], config.StartingEquity(), [], [], 0, 0, 0)
  }

  /** The books after the first n bars. */
  function Run(config: RunConfig, rows: seq<RawFunding>, bars: seq<Snapshot>, candidates: seq<Option<SignalCandidate>>,
               n: nat): Result<Books>
    requires n <= |bars| == |candidates|
  {
    if n == 0 then Ok(Start(config))
    else
      var b :- Run(config, rows, bars, candidates, n - 1);
      var decided :- Step(config, rows, b, bars[n - 1], candidates[n - 1]);
      Ok(decided.books)
  }

  function ClosingCandle(now: int, price: real): Candle {
    Candle(now - 15 * Calendar.MINUTE, price, price, price)
  }

  function ForceClosed(config: RunConfig, rows: seq<RawFunding>, r: Record, now: int,
                       price: real): Result<ClosedTradeRecord> {
    var accrued := Accrued(r, rows, now);
    Settle(config.fill, accrued.(candlesPath := AppendCandle(accrued.candlesPath, ClosingCandle(now, price))), price,
           EndOfBacktest, now)
  }

  function ForceClosedAll(config: RunConfig, rows: seq<RawFunding>, open: seq<Record>, now: int, price: real,
                          n: nat): Result<seq<ClosedTradeRecord>>
    requires n <= |open|
  {
    if n == 0 then Ok([])
    else
      var init :- ForceClosedAll(config, rows, open, now, price, n - 1);
      var last :- ForceClosed(config, rows, open[n - 1], now, price);
      Ok(init + [last])
  }

  /** Closes what is still open at the price of the last bar. */
  function Finished(config: RunConfig, rows: seq<RawFunding>, b: Books, now: int, price: real): Result<Books> {
    if |b.open| == 0 then Ok(b)
    else
      var closed :- ForceClosedAll(config, rows, b.open, now, price, |b.open|);
      var booked := Booked(b, closed).(open := []);
      Ok(booked.(curve := booked.curve + [EquityPoint(now, booked.equity)]))
  }

  /** The books a whole run ends with. */
  function Final(config: RunConfig, rows: seq<RawFunding>, bars: seq<Snapshot>,
                 candidates: seq<Option<SignalCandidate>>): Result<Books>
    requires |bars| == |candidates|
  {
    var b :- Run(config, rows, bars, candidates, |bars|);
    if |bars| == 0 then Ok(b)
    else Finished(config, rows, b, bars[|bars| - 1].timestamp, bars[|bars| - 1].price)
  }
}
