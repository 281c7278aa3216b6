/**
 The runner as the program has it: position records whose fields are updated in place, lists that
 grow as a run proceeds, and the bar loop (backtest/backtest_runner.py). Every method is proved to
 change the records and the books exactly as the functions of `Ledger` say.
 */
module BacktestRunner {
  import opened Prelude
  import opened Models
  import opened Funding
  import opened FillModel
  import opened RuntimeLimits
  import opened Ledger
  import opened LedgerRuns
  import opened Funnel
  import Governance
  import Performance
  import RiskEngine
  import SignalEngine

  class OpenPositionRecord {
    const tradeId: nat
    var position: Position
    const candidate: SignalCandidate
    const executable: ExecutableSignal
    const entryFee: real
    const entrySlippageBps: real
    const initialSize: real
    const initialStopLoss: real
    const atr15m: real
    var totalFees: real
    var fundingPaid: real
    var realizedPnlAbsGross: real
    var closedQty: real
    var exitNotionalSum: real
    var partialExitDone: bool
    var trailingStop: Option<real>
    var highestHighSincePartial: Option<real>
    var lowestLowSincePartial: Option<real>
    var lastFundingAccrualAt: Option<int>
    var slippageSamples: seq<real>
    var candlesPath: seq<Candle>

    ghost function View(): Record
      reads this
    {
      Record(tradeId, position, candidate, executable, entryFee, entrySlippageBps, initialSize, initialStopLoss, atr15m,
             totalFees, fundingPaid, realizedPnlAbsGross, closedQty, exitNotionalSum, partialExitDone, trailingStop,
             highestHighSincePartial, lowestLowSincePartial, lastFundingAccrualAt, slippageSamples, candlesPath)
    }

    constructor (tradeId: nat, position: Position, candidate: SignalCandidate, executable: ExecutableSignal,
                 fill: FillResult, now: int)
      ensures View() == Record(
                tradeId, position, candidate, executable, fill.feePaid, fill.slippageBps, position.size,
                executable.stopLoss, Max(candidate.atr15m, 0.0), fill.feePaid, 0.0, 0.0, 0.0, 0.0, false, None, None,
                None, Some(now), [fill.slippageBps], [])
    {
      this.tradeId := tradeId;
      this.position := position;
      this.candidate := candidate;
      this.executable := executable;
      entryFee := fill.feePaid;
      entrySlippageBps := fill.slippageBps;
      initialSize := position.size;
      initialStopLoss := executable.stopLoss;
      atr15m := Max(candidate.atr15m, 0.0);
      totalFees := fill.feePaid;
      fundingPaid := 0.0;
      realizedPnlAbsGross := 0.0;
      closedQty := 0.0;
      exitNotionalSum := 0.0;
      partialExitDone := false;
      trailingStop := None;
      highestHighSincePartial := None;
      lowestLowSincePartial := None;
      lastFundingAccrualAt := Some(now);
      slippageSamples := [fill.slippageBps];
      candlesPath := [];
    }

    method AccrueFunding(rows: seq<RawFunding>, accruedUntil: int)
      modifies this
      ensures View() == Accrued(old(View()), rows, accruedUntil)
    {
      var lastAccrualAt := if lastFundingAccrualAt.Some? then lastFundingAccrualAt.value else position.openedAt;
      if accruedUntil <= lastAccrualAt {
        return;
      }
      var notional := Max(Notional(position.entryPrice, position.size), 0.0);
      if notional <= 0.0 {
        lastFundingAccrualAt := Some(accruedUntil);
        return;
      }
      var paid := ComputeFundingPaid(position.direction, notional, lastAccrualAt, accruedUntil, rows);
      fundingPaid := fundingPaid + paid;
      lastFundingAccrualAt := Some(accruedUntil);
    }

    method AppendCandle(candle: Candle)
      modifies this
      ensures View() == old(View()).(candlesPath := Ledger.AppendCandle(old(candlesPath), candle))
    {
      if |candlesPath| > 0 && candlesPath[|candlesPath| - 1].openTime >= candle.openTime {
        return;
      }
      candlesPath := candlesPath + [candle];
    }

    method UpdateTrailingStop(latestHigh: real, latestLow: real, trailingAtrMult: real)
      modifies this
      ensures View() == Trailed(old(View()), latestHigh, latestLow, trailingAtrMult)
    {
      if !partialExitDone {
        return;
      }
      hide TrailDistance, OrLatest;
      var trailDistance := TrailDistance(atr15m, trailingAtrMult);
      var currentStop := if trailingStop.Some? then trailingStop.value else position.stopLoss;
      var stop;
      if position.direction == Long {
        var referenceHigh := Max(OrLatest(highestHighSincePartial, latestHigh), latestHigh);
        highestHighSincePartial := Some(referenceHigh);
        stop := Max(currentStop, referenceHigh - trailDistance);
      } else {
        var referenceLow := Min(OrLatest(lowestLowSincePartial, latestLow), latestLow);
        lowestLowSincePartial := Some(referenceLow);
        stop := Min(currentStop, referenceLow + trailDistance);
      }
      trailingStop := Some(stop);
      position := position.(stopLoss := stop);
    }

    /** Sells part of the position; the result says whether it stays open. */
    method TakePartial(config: RunConfig, decision: RiskEngine.ExitDecision, now: int, candle: Candle)
      returns (stays: Result<bool>)
      requires decision.exitPrice.Some?
      modifies this
      ensures match Ledger.TakePartial(config, old(View()), decision, now, candle)
              case Err(e) => stays == Err(e)
              case Ok(outcome) => stays == Ok(outcome.Kept?) && (outcome.Kept? ==> View() == outcome.record)
    {
      hide Notional, Share, Simulate, RiskEngine.BuildSettlementMetrics, Reduced;
      var pct := if decision.partialPct.Some? then decision.partialPct.value else config.risk.partialExitPct;
      var partialQty := Share(position.size, pct);
      if partialQty <= 0.0 {
        return Ok(true);
      }
      var filled := Simulate(config.fill, decision.exitPrice.value, partialQty, Market, ExitSide(position.direction));
      if filled.Err? {
        return Err(filled.error);
      }
      Reduce(partialQty, filled.value, now, candle);
      if position.size <= 0.0 {
        return Ok(false);
      }
      return Ok(true);
    }

    method Reduce(qty: real, exit: FillResult, now: int, candle: Candle)
      modifies this
      ensures View() == Reduced(old(View()), qty, exit, now, candle.high, candle.low)
    {
      BookSale(qty, exit);
      position := position.(size := Max(position.size - qty, 0.0), status := PositionStatus.Partial,
                            stopLoss := position.entryPrice, updatedAt := now);
      partialExitDone := true;
      trailingStop := Some(position.stopLoss);
      if position.direction == Long {
        highestHighSincePartial := Some(candle.high);
      } else {
        lowestLowSincePartial := Some(candle.low);
      }
      hide Sold;
    }

    method BookSale(qty: real, exit: FillResult)
      modifies this
      ensures View() == Sold(old(View()), qty, exit)
    {
      hide Notional, RiskEngine.BuildSettlementMetrics;
      var settlement := RiskEngine.BuildSettlementMetrics(position.(size := qty), exit.filledPrice, TakeProfitPartial,
                                                          candlesPath);
      realizedPnlAbsGross := realizedPnlAbsGross + settlement.pnlAbs;
      totalFees := totalFees + exit.feePaid;
      closedQty := closedQty + qty;
      exitNotionalSum := exitNotionalSum + Notional(settlement.exitPrice, qty);
      slippageSamples := slippageSamples + [exit.slippageBps];
    }

    method Close(config: RunConfig, price: real, reason: ExitReason, now: int)
      returns (closed: Result<ClosedTradeRecord>)
      ensures closed == Settle(config.fill, View(), price, reason, now)
    {
      hide RiskEngine.BuildSettlementMetrics, Simulate, EffectivePrice, Average, PerRisk, Notional;
      var filled := Simulate(config.fill, price, position.size, Market, ExitSide(position.direction));
      if filled.Err? {
        return Err(filled.error);
      }
      var exit := filled.value;
      var settlement := RiskEngine.BuildSettlementMetrics(position, exit.filledPrice, reason, candlesPath);
      var feesTotal := totalFees + exit.feePaid;
      var pnlAbsNet := realizedPnlAbsGross + settlement.pnlAbs - feesTotal - fundingPaid;
      var totalExitNotional := exitNotionalSum + Notional(settlement.exitPrice, position.size);
      var effectiveExitPrice := EffectivePrice(totalExitNotional, closedQty + position.size);
      var whole := position.(size := initialSize, stopLoss := initialStopLoss);
      var finalMetrics := RiskEngine.BuildSettlementMetrics(whole, effectiveExitPrice, reason, candlesPath);
      var trade := TradeLog(
        tradeId, position.signalId, position.openedAt, now, position.direction, candidate.regime,
        candidate.confluenceScore, position.entryPrice, effectiveExitPrice, initialSize, feesTotal,
        Average(slippageSamples + [exit.slippageBps]), pnlAbsNet,
        PerRisk(pnlAbsNet, position.entryPrice, initialStopLoss, initialSize), finalMetrics.mae, finalMetrics.mfe,
        finalMetrics.exitReason, fundingPaid);
      closed := Ok(ClosedTradeRecord(whole.(status := Closed, updatedAt := now), candidate, executable, trade));
    }
  }

  function DecisionFor(gate: Gate): Decision {
    match gate
    case NoCandidate => NoSignal
    case GovernanceStop(_) => GovernanceRejected
    case RiskStop(_) => RiskRejected
    case Pass(_, _, _, _) => Executed
  }

  /** What the bar loop does with a position afterwards. */
  datatype Verdict = StaysOpen | Vanishes | BecomesTrade(closed: ClosedTradeRecord)

  ghost predicate Distinct(records: seq<OpenPositionRecord>) {
    forall i, j | 0 <= i < j < |records| :: records[i] != records[j]
  }

  ghost function Views(records: seq<OpenPositionRecord>): seq<Record>
    reads records
  {
    seq(|records|, i requires 0 <= i < |records| reads records => records[i].View())
  }

  lemma {:induction false} SweepFailsOn(config: RunConfig, rows: seq<RawFunding>, open: seq<Record>, s: Snapshot,
                                        n: nat, m: nat)
    requires n <= m <= |open| && Sweep(config, rows, open, s, n).Err?
    ensures Sweep(config, rows, open, s, m) == Err(Sweep(config, rows, open, s, n).error)
  {
    hide StepRecord;
    if n < m {
      SweepFailsOn(config, rows, open, s, n, m - 1);
    }
  }

  lemma SweepNone(config: RunConfig, rows: seq<RawFunding>, open: seq<Record>, s: Snapshot)
    ensures Sweep(config, rows, open, s, 0) == Ok(Swept([], []))
  {
  }

  lemma SweepSnoc(config: RunConfig, rows: seq<RawFunding>, open: seq<Record>, s: Snapshot, i: nat, swept: Swept)
    requires i < |open| && Sweep(config, rows, open, s, i) == Ok(swept)
    ensures match StepRecord(config, rows, open[i], s)
            case Err(e) => Sweep(config, rows, open, s, i + 1) == Err(e)
            case Ok(outcome) => Sweep(config, rows, open, s, i + 1) == Ok(Filed(swept, outcome))
  {
    hide StepRecord;
  }

  lemma {:induction false} ForceFailsOn(config: RunConfig, rows: seq<RawFunding>, open: seq<Record>, now: int,
                                        price: real, n: nat, m: nat)
    requires n <= m <= |open| && ForceClosedAll(config, rows, open, now, price, n).Err?
    ensures ForceClosedAll(config, rows, open, now, price, m)
            == Err(ForceClosedAll(config, rows, open, now, price, n).error)
  {
    hide ForceClosed;
    if n < m {
      ForceFailsOn(config, rows, open, now, price, n, m - 1);
    }
  }

  /** Marks a position to the bar and applies the exit decision. */
  method CloseOrKeep(config: RunConfig, rows: seq<RawFunding>, record: OpenPositionRecord, s: Snapshot)
    returns (verdict: Result<Verdict>)
    modifies record
    ensures match StepRecord(config, rows, old(record.View()), s)
            case Err(e) => verdict == Err(e)
            case Ok(Kept(r)) => verdict == Ok(StaysOpen) && record.View() == r
            case Ok(Dropped) => verdict == Ok(Vanishes)
            case Ok(Settled(c)) => verdict == Ok(BecomesTrade(c))
  {
    hide Accrued, Ledger.AppendCandle, Trailed, RiskEngine.EvaluateExit, Ledger.TakePartial, Settle;
    var candle := LatestCandle(s);
    record.AccrueFunding(rows, s.timestamp);
    record.AppendCandle(candle);
    record.UpdateTrailingStop(candle.high, candle.low, config.risk.trailingAtrMult);
    var decision := RiskEngine.EvaluateExit(config.risk, record.position, s.timestamp, candle.high, candle.low,
                                            candle.close, true, record.partialExitDone);
    if !decision.shouldClose || decision.exitPrice.None? || decision.reason.None? {
      return Ok(StaysOpen);
    }
    if decision.reason == Some(TakeProfitPartial) {
      NeverSettles(config, record.View(), decision, s.timestamp, candle);
      var stays := record.TakePartial(config, decision, s.timestamp, candle);
      if stays.Err? {
        return Err(stays.error);
      }
      return Ok(if stays.value then StaysOpen else Vanishes);
    }
    var closed := record.Close(config, decision.exitPrice.value, decision.reason.value, s.timestamp);
    if closed.Err? {
      return Err(closed.error);
    }
    return Ok(BecomesTrade(closed.value));
  }

  datatype ClosedBatch = ClosedBatch(
    remaining: seq<OpenPositionRecord>,
    closed: seq<ClosedTradeRecord>,
    events: seq<PnlEvent>,
    equityDelta: real)

  /** The loop over the open positions: those that stay open keep their order, the others become
      trades and profit-and-loss events. */
  method CloseEach(config: RunConfig, rows: seq<RawFunding>, records: seq<OpenPositionRecord>, s: Snapshot)
    returns (batch: Result<ClosedBatch>)
    requires Distinct(records)
    modifies records
    ensures match Sweep(config, rows, old(Views(records)), s, |records|)
            case Err(e) => batch == Err(e)
            case Ok(swept) =>
              && batch.Ok? && Views(batch.value.remaining) == swept.remaining && batch.value.closed == swept.closed
              && batch.value.events == Events(swept.closed)
              && batch.value.equityDelta == SumBy(Pnls(swept.closed), Performance.Identity())
              && Distinct(batch.value.remaining) && forall r | r in batch.value.remaining :: r in records
  {
    hide StepRecord, SumBy, Events, Pnls, Sweep;
    ghost var open := Views(records);
    ghost var kept: seq<Record> := [];
    ghost var from: seq<nat> := [];
    var remaining: seq<OpenPositionRecord> := [];
    var closed: seq<ClosedTradeRecord> := [];
    var events: seq<PnlEvent> := [];
    var equityDelta := 0.0;
    NothingBooked();
    SweepNone(config, rows, open, s);
    for i := 0 to |records|
      invariant forall j | i <= j < |records| :: records[j].View() == open[j]
      invariant Selects(records, remaining, from, i)
      invariant |kept| == |remaining| && forall k | 0 <= k < |remaining| :: remaining[k].View() == kept[k]
      invariant Sweep(config, rows, open, s, i) == Ok(Swept(kept, closed))
      invariant events == Events(closed) && equityDelta == SumBy(Pnls(closed), Performance.Identity())
    {
      SweepSnoc(config, rows, open, s, i, Swept(kept, closed));
      var verdict := CloseOrKeep(config, rows, records[i], s);
      if verdict.Err? {
        SweepFailsOn(config, rows, open, s, i + 1, |open|);
        return Err(verdict.error);
      }
      match verdict.value {
        case StaysOpen =>
          remaining := remaining + [records[i]];
          from := from + [i];
          kept := kept + [records[i].View()];
        case Vanishes =>
        case BecomesTrade(c) =>
          BookOne(closed, c);
          events := events + [PnlEvent(c.trade.closedAt, c.trade.pnlAbs)];
          equityDelta := equityDelta + c.trade.pnlAbs;
          closed := closed + [c];
      }
    }
    assert Views(remaining) == kept;
    return Ok(ClosedBatch(remaining, closed, events, equityDelta));
  }

  /** `chosen` picks records at strictly increasing places below `bound`. */
  ghost predicate Selects(records: seq<OpenPositionRecord>, chosen: seq<OpenPositionRecord>, from: seq<nat>,
                          bound: nat) {
    && |from| == |chosen| && bound <= |records|
    && (forall k | 0 <= k < |from| :: from[k] < bound && chosen[k] == records[from[k]])
    && forall j, k | 0 <= j < k < |from| :: from[j] < from[k]
  }

  lemma NeverSettles(config: RunConfig, r: Record, decision: RiskEngine.ExitDecision, now: int, candle: Candle)
    requires decision.exitPrice.Some?
    ensures var outcome := Ledger.TakePartial(config, r, decision, now, candle); outcome.Ok? ==> !outcome.value.Settled?
  {
  }

  datatype BacktestResult = BacktestResult(
    performance: Performance.PerformanceReport,
    trades: seq<TradeLog>,
    equityCurve: seq<EquityPoint>)

  function Trades(closed: seq<ClosedTradeRecord>): seq<TradeLog> {
    seq(|closed|, i requires 0 <= i < |closed| => closed[i].trade)
  }

  class Runner {
    const config: RunConfig
    const signals: SignalEngine.SignalConfig
    const rows: seq<RawFunding>
    const instrumented: bool
    var governance: Governance.GovernanceLayer
    var openPositions: seq<OpenPositionRecord>
    var closedRecords: seq<ClosedTradeRecord>
    var closedPnlEvents: seq<PnlEvent>
    var openedTradeTimes: seq<int>
    var equity: real
    var equityCurve: seq<EquityPoint>
    var signalCounter: nat
    var positionCounter: nat
    var tradeCounter: nat
    var counters: Counters

    ghost predicate Valid()
      reads this`openPositions, this`governance
    {
      Distinct(openPositions) && governance.config == config.governance
    }

    ghost function Contents(): Books
      reads this`openPositions, this`closedRecords, this`closedPnlEvents, this`openedTradeTimes, this`equity,
          this`equityCurve
      reads this`governance, this`signalCounter, this`positionCounter, this`tradeCounter, openPositions, governance
    {
      Books(Views(openPositions), closedRecords, closedPnlEvents, openedTradeTimes, equity, equityCurve,
            governance.acceptedLevels, signalCounter, positionCounter, tradeCounter)
    }

    constructor (config: RunConfig, signals: SignalEngine.SignalConfig, rows: seq<RawFunding>, instrumented: bool)
      ensures Valid() && Contents() == Start(config) && counters == Counters(0, 0, 0, 0)
      ensures this.config == config && this.signals == signals && this.rows == rows && this.instrumented == instrumented
      ensures fresh(governance) && openPositions == []
    {
      this.config := config;
      this.signals := signals;
      this.rows := rows;
      this.instrumented := instrumented;
      var layer := new Governance.GovernanceLayer(config.governance);
      governance := layer;
      openPositions, closedRecords, closedPnlEvents, openedTradeTimes := [], [], [], [];
      equity := config.StartingEquity();
      equityCurve := [];
      signalCounter, positionCounter, tradeCounter := 0, 0, 0;
      counters := Counters(0, 0, 0, 0);
    }

    /** Runs the exit rules over the open positions and returns the change in equity. */
    method ClosePositionsIfNeeded(s: Snapshot) returns (delta: Result<real>)
      requires Valid()
      modifies this`openPositions, this`closedRecords, this`closedPnlEvents, openPositions
      ensures match AfterClosing(config, rows, old(Contents()), s)
              case Err(e) => delta == Err(e)
              case Ok(b) =>
                && Valid() && delta.Ok?
                && (forall r | r in openPositions :: r in old(openPositions))
                && b == Contents().(equity := old(equity) + delta.value)
    {
      hide StepRecord, SumBy, Events, Pnls, Booked, Sweep;
      var swept := CloseEach(config, rows, openPositions, s);
      if swept.Err? {
        return Err(swept.error);
      }
      openPositions := swept.value.remaining;
      closedRecords := closedRecords + swept.value.closed;
      closedPnlEvents := closedPnlEvents + swept.value.events;
      BookedIs(old(Contents()), swept.value.closed);
      return Ok(swept.value.equityDelta);
    }

    /** The counting proxies stand between the runner and its engines when it is instrumented. */
    method GenerateSignal(s: Snapshot) returns (candidate: Option<SignalCandidate>)
      modifies this`counters
      ensures candidate == if instrumented then ProxyCandidate(signals, s) else PlainCandidate(signals, s)
      ensures counters == if instrumented
                          then CountedBar(old(counters), Bit(candidate.Some?),
                                          IsRegimeBlocked(signals, Compute(s), s.regime), NoSignal)
                          else old(counters)
    {
      var f := Compute(s);
      if instrumented && IsRegimeBlocked(signals, f, s.regime) {
        counters := counters.(regimeBlocked := counters.regimeBlocked + 1, generated := counters.generated + 1);
        return None;
      }
      hide IsRegimeBlocked;
      var diagnostics := SignalEngine.Diagnose(signals, f, s.regime);
      candidate := SignalEngine.FromDiagnostics(signals, f, s.regime, s.contextEligible, diagnostics);
      if instrumented && candidate.Some? {
        counters := counters.(generated := counters.generated + 1);
      }
    }

    /** Asks governance and then the risk engine, both against the runtime state recomputed from the
        history of the run. */
    method Judge(now: int, candidate: SignalCandidate) returns (gate: Gate)
      requires Valid()
      modifies this`signalCounter, this`counters, governance
      ensures gate == Gated(config, old(Contents()), now, Some(candidate))
      ensures signalCounter == old(signalCounter) + 1 && !gate.NoCandidate? && governance.acceptedLevels == gate.levels
      ensures counters == CountedBar(old(counters), 0, false, if instrumented then DecisionFor(gate) else NoSignal)
    {
      hide Governance.Evaluated, RiskEngine.Evaluate, Runtime, Governance.ToExecutable, Gated;
      GatedIs(config, Contents(), now, candidate);
      var runtime := ComputeRuntimeState(now, openedTradeTimes, closedRecords, closedPnlEvents,
                                         config.StartingEquity());
      signalCounter := signalCounter + 1;
      var c := candidate.(signalId := signalCounter);
      var approved := governance.Evaluate(runtime.ForGovernance(), c);
      if !approved {
        CountRejection(GovernanceRejected);
        return GovernanceStop(governance.acceptedLevels);
      }
      var executable := Governance.ToExecutable(c);
      var allowed := RiskEngine.Evaluate(config.risk, runtime.ForRisk(), executable, equity, |openPositions|);
      if allowed.Rejected? {
        CountRejection(RiskRejected);
        return RiskStop(governance.acceptedLevels);
      }
      return Pass(governance.acceptedLevels, c, allowed.size, allowed.leverage);
    }

    /** Passes a candidate through both gates and opens a position if they agree. */
    method Process(now: int, candidate: SignalCandidate) returns (decision: Result<Decision>)
      requires Valid()
      modifies this, governance
      ensures governance == old(governance)
      ensures openPositions == old(openPositions) || (|openPositions| == |old(openPositions)| + 1
              && openPositions[..|old(openPositions)|] == old(openPositions)
              && fresh(openPositions[|old(openPositions)|]))
      ensures match Decide(config, old(Contents()), now, Some(candidate))
              case Err(e) => decision == Err(e)
              case Ok(d) => Valid() && decision == Ok(d.decision) && Contents() == d.books
      ensures decision.Ok? ==>
                counters == CountedBar(old(counters), 0, false, if instrumented then decision.value else NoSignal)
    {
      hide Governance.ToExecutable, Gated, NewRecord;
      ghost var views := Views(openPositions);
      var gate := Judge(now, candidate);
      assert Views(openPositions) == views;
      if gate.GovernanceStop? || gate.RiskStop? {
        return Ok(DecisionFor(gate));
      }
      hide Views, Opened;
      NewRecordIs(config, old(Contents()), now, gate.candidate, gate.size, gate.leverage);
      NewRecordIs(config, Contents(), now, gate.candidate, gate.size, gate.leverage);
      var admitted := Admit(now, gate.candidate, gate.size, gate.leverage);
      return if admitted.Ok? then Ok(Executed) else Err(admitted.error);
    }

    /** Opens a position for a candidate that passed, and notes when. */
    method Admit(now: int, candidate: SignalCandidate, size: real, leverage: int) returns (admitted: Result<()>)
      requires Valid()
      modifies this`positionCounter, this`tradeCounter, this`openPositions, this`openedTradeTimes
      ensures openPositions == old(openPositions) || (|openPositions| == |old(openPositions)| + 1
              && openPositions[..|old(openPositions)|] == old(openPositions)
              && fresh(openPositions[|old(openPositions)|]))
      ensures match NewRecord(config, old(Contents()), now, candidate, size, leverage)
              case Err(e) => admitted == Err(e)
              case Ok(r) =>
                && admitted.Ok? && Valid()
                && Contents() == old(Contents()).(
                     open := old(Contents()).open + [r], opens := old(Contents()).opens + [now],
                     positionCounter := old(positionCounter) + 1, tradeCounter := old(tradeCounter) + 1)
    {
      hide Opened, Governance.ToExecutable, NewRecord;
      ghost var views := Views(openPositions);
      NewRecordIs(config, Contents(), now, candidate, size, leverage);
      var newPosition := OpenPosition(now, candidate, Governance.ToExecutable(candidate), size, leverage);
      if newPosition.Err? {
        return Err(newPosition.error);
      }
      openPositions := openPositions + [newPosition.value];
      openedTradeTimes := openedTradeTimes + [now];
      assert Views(openPositions) == views + [newPosition.value.View()];
      return Ok(());
    }

    /** What the governance and risk proxies add to the counters. */
    method CountRejection(decision: Decision)
      modifies this`counters
      ensures counters == CountedBar(old(counters), 0, false, if instrumented then decision else NoSignal)
    {
      if instrumented {
        counters := counters.(governanceRejected := counters.governanceRejected + Bit(decision.GovernanceRejected?),
                              riskRejected := counters.riskRejected + Bit(decision.RiskRejected?));
      }
    }

    method OpenPosition(now: int, candidate: SignalCandidate, executable: ExecutableSignal, size: real, leverage: int)
      returns (record: Result<OpenPositionRecord>)
      modifies this`positionCounter, this`tradeCounter
      ensures positionCounter == old(positionCounter) + 1 && tradeCounter == old(tradeCounter) + 1
      ensures match Opened(config, now, candidate, executable, size, leverage, positionCounter, tradeCounter)
              case Err(e) => record == Err(e)
              case Ok(r) => record.Ok? && fresh(record.value) && record.value.View() == r
    {
      positionCounter := positionCounter + 1;
      tradeCounter := tradeCounter + 1;
      var filled := Simulate(config.fill, executable.entryPrice, size, config.entryOrderType,
                             EntrySide(executable.direction));
      if filled.Err? {
        return Err(filled.error);
      }
      var position := Position(
        positionCounter, executable.direction, PositionStatus.Open, filled.value.filledPrice, size, leverage,
        executable.stopLoss, executable.takeProfit1, executable.takeProfit2, now, now, executable.signalId);
      var created := new OpenPositionRecord(tradeCounter, position, candidate, executable, filled.value, now);
      return Ok(created);
    }

    /** One bar: close, decide, note the equity. */
    method RunBar(s: Snapshot) returns (decision: Result<Decision>)
      requires Valid()
      modifies this, openPositions, governance
      ensures governance == old(governance)
      ensures decision.Ok? ==>
                forall i | 0 <= i < |openPositions| :: openPositions[i] in old(openPositions) || fresh(openPositions[i])
      ensures match Step(config, rows, old(Contents()), s, Source(s))
              case Err(e) => decision == Err(e)
              case Ok(d) => Valid() && decision == Ok(d.decision) && Contents() == d.books
      ensures decision.Ok? && instrumented ==>
                counters == CountedBar(old(counters), Bit(Source(s).Some?),
                                       IsRegimeBlocked(signals, Compute(s), s.regime), decision.value)
    {
      hide AfterClosing, Decide, ProxyCandidate, PlainCandidate, IsRegimeBlocked, Step, Contents, Valid;
      StepSplits(config, rows, Contents(), s, Source(s));
      var closed := CloseBar(s);
      if closed.Err? {
        return Err(closed.error);
      }
      var candidate := GenerateSignal(s);
      decision := DecideBar(s, candidate);
    }

    /** The first half of a bar: run the exit rules and book what they closed. */
    method CloseBar(s: Snapshot) returns (closed: Result<()>)
      requires Valid()
      modifies this`openPositions, this`closedRecords, this`closedPnlEvents, this`equity, openPositions
      ensures match AfterClosing(config, rows, old(Contents()), s)
              case Err(e) => closed == Err(e)
              case Ok(b) => closed.Ok? && Valid() && Contents() == b
      ensures closed.Ok? ==> forall i | 0 <= i < |openPositions| :: openPositions[i] in old(openPositions)
    {
      hide AfterClosing;
      var delta := ClosePositionsIfNeeded(s);
      if delta.Err? {
        return Err(delta.error);
      }
      equity := equity + delta.value;
      return Ok(());
    }

    /** The second half: decide on the candidate, if there is one, and note the equity. */
    method DecideBar(s: Snapshot, candidate: Option<SignalCandidate>) returns (decision: Result<Decision>)
      requires Valid()
      modifies this, governance
      ensures governance == old(governance)
      ensures forall i | 0 <= i < |openPositions| :: openPositions[i] in old(openPositions) || fresh(openPositions[i])
      ensures match Decide(config, old(Contents()), s.timestamp, candidate)
              case Err(e) => decision == Err(e)
              case Ok(d) =>
                && Valid() && decision == Ok(d.decision)
                && Contents() == d.books.(curve := d.books.curve + [EquityPoint(s.timestamp, d.books.equity)])
      ensures decision.Ok? ==>
                counters == CountedBar(old(counters), 0, false, if instrumented then decision.value else NoSignal)
    {
      hide Decide;
      decision := Ok(NoSignal);
      NoCandidateNoDecision(config, Contents(), s.timestamp);
      if candidate.Some? {
        decision := Process(s.timestamp, candidate.value);
        if decision.Err? {
          return;
        }
      }
      equityCurve := equityCurve + [EquityPoint(s.timestamp, equity)];
    }

    /** The candidate the engines of this runner produce for a bar. */
    function Source(s: Snapshot): Option<SignalCandidate> {
      if instrumented then ProxyCandidate(signals, s) else PlainCandidate(signals, s)
    }

    /** Closes whatever is still open at the last price. */
    method ForceCloseRemaining(now: int, price: real) returns (delta: Result<real>)
      requires Valid()
      modifies this`openPositions, this`closedRecords, this`closedPnlEvents, openPositions
      ensures match ForceClosedAll(config, rows, old(Contents()).open, now, price, |old(openPositions)|)
              case Err(e) => delta == Err(e)
              case Ok(closed) =>
                && delta.Ok? && openPositions == []
                && Booked(old(Contents()), closed).(open := []) == Contents().(equity := old(equity) + delta.value)
    {
      hide ForceClosedAll, SumBy, Events, Pnls, Booked;
      var batch := CloseAllAt(config, rows, openPositions, now, price);
      if batch.Err? {
        return Err(batch.error);
      }
      BookedIs(old(Contents()), batch.value.closed);
      openPositions := [];
      closedRecords := closedRecords + batch.value.closed;
      closedPnlEvents := closedPnlEvents + batch.value.events;
      return Ok(batch.value.equityDelta);
    }

    /** Puts the runner back to an empty ledger with fresh engines; the signal counters live on. */
    method Reset()
      modifies this
      ensures Valid() && Contents() == Start(config) && counters == old(counters)
      ensures fresh(governance) && openPositions == []
    {
      ClearHistory();
      openPositions := [];
      equity := config.StartingEquity();
      signalCounter, positionCounter, tradeCounter := 0, 0, 0;
      assert Views(openPositions) == [];
      governance := new Governance.GovernanceLayer(config.governance);
    }

    method ClearHistory()
      modifies this`closedRecords, this`closedPnlEvents, this`openedTradeTimes, this`equityCurve
      ensures closedRecords == [] && closedPnlEvents == [] && openedTradeTimes == [] && equityCurve == []
    {
      closedRecords, closedPnlEvents, openedTradeTimes, equityCurve := [], [], [], [];
    }

    /** Replays the bars. The result carries the trades, the equity curve and the summary of exactly
        the books that `Final` describes; an instrumented runner also counts its signals. */
    method Run(bars: seq<Snapshot>) returns (result: Result<BacktestResult>)
      modifies this
      ensures match Final(config, rows, bars, Candidates(bars))
              case Err(e) => result == Err(e)
              case Ok(b) =>
                && result.Ok? && result.value.trades == Trades(b.closed) && result.value.equityCurve == b.curve
                && result.value.performance.tradesCount == |b.opens|
                && result.value.performance.pnlAbs == b.equity - config.StartingEquity()
      ensures result.Ok? && instrumented ==>
                && counters == Plus(old(counters), ProxyCounters(config, signals, rows, bars, |bars|))
                && (FunnelAddsUp(counters, |result.value.trades|) <==> FunnelAddsUp(old(counters), 0))
    {
      hide Step, ProxyCandidate, PlainCandidate, IsRegimeBlocked, CountersOf, Finished, Contents, Valid, FunnelAddsUp;
      Reset();
      ghost var candidates := Candidates(bars);
      CountersStart(config, rows, bars, candidates, ProxyProduced(signals, bars), ProxyBlocked(signals, bars));
      for k := 0 to |bars|
        invariant Valid() && fresh(governance)
        invariant forall i | 0 <= i < |openPositions| :: fresh(openPositions[i])
        invariant Ledger.Run(config, rows, bars, candidates, k) == Ok(Contents())
        invariant instrumented ==>
                    counters == Plus(
                      old(counters),
                      CountersOf(config, rows, bars, candidates, ProxyProduced(signals, bars),
                                 ProxyBlocked(signals, bars), k))
      {
        RunSnoc(config, rows, bars, candidates, k, Contents());
        CountersSnoc(config, rows, bars, candidates, ProxyProduced(signals, bars), ProxyBlocked(signals, bars), k,
                     Contents());
        var decision := RunBar(bars[k]);
        if decision.Err? {
          RunFailsOn(config, rows, bars, candidates, k + 1, |bars|);
          return Err(decision.error);
        }
      }
      result := FinishRun(bars, candidates);
      if result.Ok? && instrumented {
        assert candidates == ProxyCandidates(signals, bars);
        FunnelBalances(config, signals, rows, bars);
        RunsOn(old(counters), ProxyCounters(config, signals, rows, bars, |bars|), |result.value.trades|);
      }
    }

    /** The candidates of a whole run. */
    function Candidates(bars: seq<Snapshot>): seq<Option<SignalCandidate>> {
      seq(|bars|, i requires 0 <= i < |bars| => Source(bars[i]))
    }

    /** The end of a run: forced closing, the final equity point, the summary. */
    method FinishRun(bars: seq<Snapshot>, ghost candidates: seq<Option<SignalCandidate>>)
      returns (result: Result<BacktestResult>)
      requires Valid() && |bars| == |candidates| && Ledger.Run(config, rows, bars, candidates, |bars|) == Ok(Contents())
      modifies this`openPositions, this`closedRecords, this`closedPnlEvents, this`equity, this`equityCurve,
          openPositions
      ensures match Final(config, rows, bars, candidates)
              case Err(e) => result == Err(e)
              case Ok(b) =>
                && result.Ok? && result.value.trades == Trades(b.closed) && result.value.equityCurve == b.curve
                && result.value.performance.tradesCount == |b.opens|
                && result.value.performance.pnlAbs == b.equity - config.StartingEquity()
    {
      hide Ledger.Run, ForceClosedAll, Booked, SumBy, Pnls, Events;
      if |openPositions| > 0 && |bars| > 0 {
        var now, price := bars[|bars| - 1].timestamp, bars[|bars| - 1].price;
        var delta := ForceCloseRemaining(now, price);
        if delta.Err? {
          return Err(delta.error);
        }
        equity := equity + delta.value;
        equityCurve := equityCurve + [EquityPoint(now, equity)];
      }
      NoBarsNothingOpen(config, rows, bars, candidates);
      assert Final(config, rows, bars, candidates) == Ok(Contents());
      FinalConserves(config, rows, bars, candidates);
      OneTradePerOpening(config, rows, bars, candidates);
      PnlOfTrades(closedRecords);
      hide Final;
      var trades := Trades(closedRecords);
      var performance := Performance.Summarize(trades, config.StartingEquity());
      return Ok(BacktestResult(performance, trades, equityCurve));
    }
  }

  /** Settles every position at the given price. */
  method CloseAllAt(config: RunConfig, rows: seq<RawFunding>, records: seq<OpenPositionRecord>, now: int, price: real)
    returns (batch: Result<ClosedBatch>)
    requires Distinct(records)
    modifies records
    ensures match ForceClosedAll(config, rows, old(Views(records)), now, price, |records|)
            case Err(e) => batch == Err(e)
            case Ok(closed) =>
              && batch.Ok? && batch.value.closed == closed && batch.value.events == Events(closed)
              && batch.value.equityDelta == SumBy(Pnls(closed), Performance.Identity())
  {
    hide ForceClosed, SumBy, Events, Pnls;
    ghost var open := Views(records);
    var closed: seq<ClosedTradeRecord> := [];
    var events: seq<PnlEvent> := [];
    var equityDelta := 0.0;
    NothingBooked();
    for i := 0 to |records|
      invariant forall j | i <= j < |records| :: records[j].View() == open[j]
      invariant ForceClosedAll(config, rows, open, now, price, i) == Ok(closed)
      invariant events == Events(closed) && equityDelta == SumBy(Pnls(closed), Performance.Identity())
    {
      var settled := ForceCloseOne(config, rows, records[i], now, price);
      if settled.Err? {
        ForceFailsOn(config, rows, open, now, price, i + 1, |open|);
        return Err(settled.error);
      }
      BookOne(closed, settled.value);
      events := events + [PnlEvent(settled.value.trade.closedAt, settled.value.trade.pnlAbs)];
      equityDelta := equityDelta + settled.value.trade.pnlAbs;
      closed := closed + [settled.value];
    }
    return Ok(ClosedBatch([], closed, events, equityDelta));
  }

  method ForceCloseOne(config: RunConfig, rows: seq<RawFunding>, record: OpenPositionRecord, now: int, price: real)
    returns (closed: Result<ClosedTradeRecord>)
    modifies record
    ensures closed == ForceClosed(config, rows, old(record.View()), now, price)
  {
    hide Accrued, Ledger.AppendCandle, Settle;
    record.AccrueFunding(rows, now);
    record.AppendCandle(ClosingCandle(now, price));
    closed := record.Close(config, price, EndOfBacktest, now);
  }

  lemma StepSplits(config: RunConfig, rows: seq<RawFunding>, b: Books, s: Snapshot, candidate: Option<SignalCandidate>)
    ensures match AfterClosing(config, rows, b, s)
            case Err(e) => Step(config, rows, b, s, candidate) == Err(e)
            case Ok(mid) =>
              match Decide(config, mid, s.timestamp, candidate)
              case Err(e) => Step(config, rows, b, s, candidate) == Err(e)
              case Ok(d) =>
                Step(config, rows, b, s, candidate)
                == Ok(d.(books := d.books.(curve := d.books.curve + [EquityPoint(s.timestamp, d.books.equity)])))
  {
    hide AfterClosing, Decide;
  }

  lemma NoCandidateNoDecision(config: RunConfig, b: Books, now: int)
    ensures Decide(config, b, now, None) == Ok(Decided(b, NoSignal))
  {
  }

  lemma RunSnoc(config: RunConfig, rows: seq<RawFunding>, bars: seq<Snapshot>,
                candidates: seq<Option<SignalCandidate>>, k: nat, b: Books)
    requires k < |bars| == |candidates| && Ledger.Run(config, rows, bars, candidates, k) == Ok(b)
    ensures match Step(config, rows, b, bars[k], candidates[k])
            case Err(e) => Ledger.Run(config, rows, bars, candidates, k + 1) == Err(e)
            case Ok(d) => Ledger.Run(config, rows, bars, candidates, k + 1) == Ok(d.books)
  {
    hide Step;
  }

  lemma {:induction false} RunFailsOn(config: RunConfig, rows: seq<RawFunding>, bars: seq<Snapshot>,
                                      candidates: seq<Option<SignalCandidate>>, n: nat, m: nat)
    requires n <= m <= |bars| == |candidates| && Ledger.Run(config, rows, bars, candidates, n).Err?
    ensures Ledger.Run(config, rows, bars, candidates, m) == Err(Ledger.Run(config, rows, bars, candidates, n).error)
  {
    hide Step;
    if n < m {
      RunFailsOn(config, rows, bars, candidates, n, m - 1);
    }
  }

  lemma CountersStart(config: RunConfig, rows: seq<RawFunding>, bars: seq<Snapshot>,
                      candidates: seq<Option<SignalCandidate>>, produced: seq<nat>, blocked: seq<bool>)
    requires |bars| == |candidates| == |produced| == |blocked|
    ensures CountersOf(config, rows, bars, candidates, produced, blocked, 0) == Counters(0, 0, 0, 0)
  {
  }

  lemma CountersSnoc(config: RunConfig, rows: seq<RawFunding>, bars: seq<Snapshot>,
                     candidates: seq<Option<SignalCandidate>>, produced: seq<nat>, blocked: seq<bool>, k: nat, b: Books)
    requires k < |bars| == |candidates| == |produced| == |blocked|
             && Ledger.Run(config, rows, bars, candidates, k) == Ok(b)
    ensures Step(config, rows, b, bars[k], candidates[k]).Ok? ==>
              CountersOf(config, rows, bars, candidates, produced, blocked, k + 1)
              == CountedBar(CountersOf(config, rows, bars, candidates, produced, blocked, k), produced[k], blocked[k],
                            Step(config, rows, b, bars[k], candidates[k]).value.decision)
  {
    hide Step, Ledger.Run;
  }

  lemma NoBarsNothingOpen(config: RunConfig, rows: seq<RawFunding>, bars: seq<Snapshot>,
                          candidates: seq<Option<SignalCandidate>>)
    requires |bars| == |candidates|
    ensures |bars| == 0 ==> Ledger.Run(config, rows, bars, candidates, |bars|) == Ok(Start(config))
  {
  }

  lemma {:induction false} PnlOfTrades(closed: seq<ClosedTradeRecord>)
    ensures SumBy(Trades(closed), Performance.Pnl()) == SumBy(Pnls(closed), Performance.Identity())
  {
    if |closed| > 0 {
      var init := closed[..|closed| - 1];
      PnlOfTrades(init);
      assert Trades(closed)[..|closed| - 1] == Trades(init);
      assert Pnls(closed)[..|closed| - 1] == Pnls(init);
    }
  }

  /** The gate, spelled out the way the runner walks through it. */
  lemma GatedIs(config: RunConfig, b: Books, now: int, candidate: SignalCandidate)
    ensures var runtime := Runtime(now, b.opens, b.closed, b.events, config.StartingEquity());
            var c := candidate.(signalId := b.signalCounter + 1);
            var verdict := Governance.Evaluated(config.governance, b.levels, runtime.ForGovernance(), c.timestamp,
                                                c.entryReference);
            var risk := RiskEngine.Evaluate(config.risk, runtime.ForRisk(), Governance.ToExecutable(c), b.equity,
                                            |b.open|);
            Gated(config, b, now, Some(candidate))
            == if !verdict.approved then GovernanceStop(verdict.levels)
               else if risk.Rejected? then RiskStop(verdict.levels)
               else Pass(verdict.levels, c, risk.size, risk.leverage)
  {
    hide Governance.Evaluated, RiskEngine.Evaluate, Runtime;
  }

  lemma NewRecordIs(config: RunConfig, b: Books, now: int, c: SignalCandidate, size: real, leverage: int)
    ensures NewRecord(config, b, now, c, size, leverage)
         == Opened(config, now, c, Governance.ToExecutable(c), size, leverage,
                   b.positionCounter + 1, b.tradeCounter + 1)
  {
    hide Opened;
  }

  lemma BookedIs(b: Books, closed: seq<ClosedTradeRecord>)
    ensures Booked(b, closed) == b.(closed := b.closed + closed, events := b.events + Events(closed),
                                    equity := b.equity + SumBy(Pnls(closed), Performance.Identity()))
  {
  }

  lemma NothingBooked()
    ensures Pnls([]) == [] && Events([]) == [] && SumBy([], Performance.Identity()) == 0.0
  {
  }

  lemma BookOne(booked: seq<ClosedTradeRecord>, c: ClosedTradeRecord)
    ensures Pnls(booked + [c]) == Pnls(booked) + [c.trade.pnlAbs]
    ensures Events(booked + [c]) == Events(booked) + [PnlEvent(c.trade.closedAt, c.trade.pnlAbs)]
    ensures SumBy(Pnls(booked + [c]), Performance.Identity())
            == SumBy(Pnls(booked), Performance.Identity()) + c.trade.pnlAbs
  {
    var pnls := Pnls(booked) + [c.trade.pnlAbs];
    assert Pnls(booked + [c]) == pnls;
    assert pnls[..|pnls| - 1] == Pnls(booked);
  }
}
