/**
 When a run cannot fail: the only errors are fills at a price or quantity that is not positive and an order
 type that is not supported, and with positive bars and candidates none of them occurs.
 */
module LedgerFills {
  import opened Prelude
  import opened RealArith
  import opened Models
  import opened Funding
  import opened FillModel
  import opened RuntimeLimits
  import opened Ledger
  import opened LedgerSettlement
  import opened LedgerRuns
  import Governance
  import RiskEngine

  // ---------------------------------------------------------------- one position

  predicate PositiveBar(s: Snapshot) {
    var candle := LatestCandle(s);
    s.price > 0.0 && candle.high > 0.0 && candle.low > 0.0 && candle.close > 0.0
  }

  /** Whichever exit rule applies to the position at a positive bar, its price is positive. */
  predicate Priced(r: Record) {
    && (if r.position.direction.Long? then r.position.takeProfit1 > 0.0
        else r.position.stopLoss > 0.0 && r.position.entryPrice > 0.0)
    && (r.lowestLowSincePartial.Some? ==> r.lowestLowSincePartial.value > 0.0)
  }

  lemma MarkedIsPriced(config: RunConfig, rows: seq<RawFunding>, r: Record, s: Snapshot)
    requires Balanced(config, r) && Priced(r) && PositiveBar(s)
    ensures Priced(Marked(config, rows, r, s))
  {
    var candle := LatestCandle(s);
    var accrued := Accrued(r, rows, s.timestamp);
    AccruedKeeps(config, rows, r, s.timestamp);
    AccruedIsPriced(r, rows, s.timestamp);
    TrailedIsPriced(accrued.(candlesPath := AppendCandle(accrued.candlesPath, candle)), candle.high, candle.low,
                    config.risk.trailingAtrMult);
    hide Accrued, AppendCandle, Trailed, Balanced;
  }

  lemma AccruedIsPriced(r: Record, rows: seq<RawFunding>, until: int)
    ensures Priced(Accrued(r, rows, until)) == Priced(r)
    ensures Accrued(r, rows, until).trailingStop == r.trailingStop
  {
    hide FundingPaid, Notional;
  }

  lemma TrailedIsPriced(r: Record, high: real, low: real, mult: real)
    requires Priced(r) && low > 0.0
    requires r.partialExitDone ==> r.trailingStop == Some(r.position.stopLoss)
    ensures Priced(Trailed(r, high, low, mult))
  {
    TrailNotNegative(r.atr15m, mult);
    hide TrailDistance;
  }

  lemma TrailNotNegative(atr15m: real, mult: real)
    ensures TrailDistance(atr15m, mult) >= 0.0
  {
    ProductNonNegative(Max(mult, 0.0), Max(atr15m, TINY));
  }

  lemma ExitIsPositive(config: RunConfig, r: Record, s: Snapshot)
    requires Priced(r) && PositiveBar(s)
    ensures Exit(config, r, s).exitPrice.Some? ==> Exit(config, r, s).exitPrice.value > 0.0
  {
  }

  lemma ReducedIsPriced(r: Record, qty: real, exit: FillResult, now: int, high: real, low: real)
    requires Priced(r) && low > 0.0
    ensures Priced(Reduced(r, qty, exit, now, high, low))
  {
    hide RiskEngine.BuildSettlementMetrics, Notional;
  }

  lemma SettleSucceeds(config: RunConfig, r: Record, price: real, reason: ExitReason, now: int)
    requires Balanced(config, r) && price > 0.0
    ensures Settle(config.fill, r, price, reason, now).Ok?
  {
    SettledSize(config, r, price, reason, now);
  }

  /** A bar with positive prices never fails for a position whose own prices are positive, and keeps them so. */
  lemma StepSucceeds(config: RunConfig, rows: seq<RawFunding>, r: Record, s: Snapshot)
    requires Balanced(config, r) && Priced(r) && PositiveBar(s)
    ensures StepRecord(config, rows, r, s).Ok?
    ensures var outcome := StepRecord(config, rows, r, s).value; outcome.Kept? ==> Priced(outcome.record)
  {
    MarkedKeeps(config, rows, r, s);
    MarkedIsPriced(config, rows, r, s);
    var m, candle := Marked(config, rows, r, s), LatestCandle(s);
    ExitIsPositive(config, m, s);
    var decision := Exit(config, m, s);
    if decision.shouldClose && decision.exitPrice.Some? && decision.reason.Some? {
      SettleSucceeds(config, m, decision.exitPrice.value, decision.reason.value, s.timestamp);
      if decision.reason == Some(TakeProfitPartial) {
        PartialOnlyOnce(config, m, s);
        var qty := PartialQty(config, m, decision);
        var exit := Simulate(config.fill, decision.exitPrice.value, qty, Market, ExitSide(m.position.direction));
        assert exit.Ok?;
        ReducedIsPriced(m, qty, exit.value, s.timestamp, candle.high, candle.low);
      }
    }
    hide Marked, Exit, Balanced, PartialQty, Reduced, Settle, Priced;
  }

  lemma ForceSucceeds(config: RunConfig, rows: seq<RawFunding>, r: Record, now: int, price: real)
    requires Balanced(config, r) && price > 0.0
    ensures ForceClosed(config, rows, r, now, price).Ok?
  {
    var accrued := Accrued(r, rows, now);
    var path := AppendCandle(accrued.candlesPath, ClosingCandle(now, price));
    AccruedKeeps(config, rows, r, now);
    PathIsIrrelevant(config, rows, accrued, path);
    SettleSucceeds(config, accrued.(candlesPath := path), price, EndOfBacktest, now);
    hide Balanced, Accrued, Settle;
  }

  // ---------------------------------------------------------------- all positions

  ghost predicate AllPriced(open: seq<Record>) {
    forall i | 0 <= i < |open| :: Priced(open[i])
  }

  lemma {:induction false} SweepSucceeds(config: RunConfig, rows: seq<RawFunding>, open: seq<Record>, s: Snapshot,
                                         n: nat)
    requires n <= |open| && AllBalanced(config, open) && AllPriced(open) && PositiveBar(s)
    ensures Sweep(config, rows, open, s, n).Ok? && AllPriced(Sweep(config, rows, open, s, n).value.remaining)
  {
    hide StepRecord, Balanced, Priced;
    if n > 0 {
      SweepSucceeds(config, rows, open, s, n - 1);
      StepSucceeds(config, rows, open[n - 1], s);
    }
  }

  lemma {:induction false} ForceAllSucceeds(config: RunConfig, rows: seq<RawFunding>, open: seq<Record>, now: int,
                                            price: real, n: nat)
    requires n <= |open| && AllBalanced(config, open) && price > 0.0
    ensures ForceClosedAll(config, rows, open, now, price, n).Ok?
  {
    hide ForceClosed, Balanced;
    if n > 0 {
      ForceAllSucceeds(config, rows, open, now, price, n - 1);
      ForceSucceeds(config, rows, open[n - 1], now, price);
    }
  }

  // ---------------------------------------------------------------- opening

  /** The order type is supported and a short is not filled at or below zero. */
  predicate CanOpen(config: RunConfig) {
    !config.entryOrderType.Unsupported? && SlippageBps(config.fill, config.entryOrderType) < BPS
  }

  predicate PositiveCandidate(c: SignalCandidate) {
    && c.entryReference > 0.0
    && (if c.direction.Long? then c.tpReference1 > 0.0 else c.invalidationLevel > 0.0)
  }

  lemma OpeningSucceeds(config: RunConfig, b: Books, now: int, c: SignalCandidate, size: real, leverage: int)
    requires CanOpen(config) && PositiveCandidate(c) && size > 0.0
    ensures NewRecord(config, b, now, c, size, leverage).Ok?
    ensures Priced(NewRecord(config, b, now, c, size, leverage).value)
  {
    var slip := Slippage(config.fill, config.entryOrderType);
    if slip < 1.0 {
      ProductStrict(0.0, 1.0 - slip, c.entryReference);
    }
    hide Governance.ComputeRr, Fee;
  }

  lemma DecisionSucceeds(config: RunConfig, b: Books, now: int, candidate: Option<SignalCandidate>)
    requires CanOpen(config) && AllPriced(b.open)
    requires candidate.Some? ==> PositiveCandidate(candidate.value)
    ensures Decide(config, b, now, candidate).Ok? && AllPriced(Decide(config, b, now, candidate).value.books.open)
  {
    hide Gated, NewRecord, Priced, CanOpen, PositiveCandidate;
    var gate := Gated(config, b, now, candidate);
    if gate.Pass? {
      PassedCandidate(config, b, now, candidate);
      OpeningSucceeds(config, b, now, gate.candidate, gate.size, gate.leverage);
    }
  }

  /** What passes the gates has a positive size and the prices of the candidate. */
  lemma PassedCandidate(config: RunConfig, b: Books, now: int, candidate: Option<SignalCandidate>)
    requires Gated(config, b, now, candidate).Pass?
    ensures candidate.Some? && Gated(config, b, now, candidate).size > 0.0
    ensures PositiveCandidate(candidate.value) ==> PositiveCandidate(Gated(config, b, now, candidate).candidate)
  {
    hide Governance.Evaluated, Runtime, RiskEngine.SelectLeverage;
  }

  // ---------------------------------------------------------------- whole runs

  ghost predicate PositiveBars(bars: seq<Snapshot>) {
    forall i | 0 <= i < |bars| :: PositiveBar(bars[i])
  }

  ghost predicate PositiveCandidates(candidates: seq<Option<SignalCandidate>>) {
    forall i | 0 <= i < |candidates| && candidates[i].Some? :: PositiveCandidate(candidates[i].value)
  }

  lemma BarSucceeds(config: RunConfig, rows: seq<RawFunding>, b: Books, s: Snapshot,
                    candidate: Option<SignalCandidate>)
    requires CanOpen(config) && PositiveBar(s) && (candidate.Some? ==> PositiveCandidate(candidate.value))
    requires AllBalanced(config, b.open) && AllPriced(b.open)
    ensures Step(config, rows, b, s, candidate).Ok?
    ensures AllPriced(Step(config, rows, b, s, candidate).value.books.open)
  {
    hide Sweep, Decide, AllPriced, AllBalanced, CanOpen, PositiveBar, PositiveCandidate;
    SweepSucceeds(config, rows, b.open, s, |b.open|);
    var mid := AfterClosing(config, rows, b, s).value;
    DecisionSucceeds(config, mid, s.timestamp, candidate);
  }

  lemma {:induction false} RunSucceeds(config: RunConfig, rows: seq<RawFunding>, bars: seq<Snapshot>,
                                       candidates: seq<Option<SignalCandidate>>, n: nat)
    requires n <= |bars| == |candidates| && CanOpen(config)
    requires PositiveBars(bars) && PositiveCandidates(candidates)
    ensures Run(config, rows, bars, candidates, n).Ok?
    ensures AllPriced(Run(config, rows, bars, candidates, n).value.open)
  {
    hide Step, AllPriced, AllBalanced, TradesTell, CanOpen, PositiveBar, PositiveCandidate;
    if n == 0 {
      NothingPriced();
    } else {
      RunSucceeds(config, rows, bars, candidates, n - 1);
      RunTells(config, rows, bars, candidates, n - 1);
      BarSucceeds(config, rows, Run(config, rows, bars, candidates, n - 1).value, bars[n - 1], candidates[n - 1]);
    }
  }

  lemma NothingPriced()
    ensures AllPriced([])
  {
  }

  /** No run over positive bars and candidates ends with an error. */
  lemma FinalSucceeds(config: RunConfig, rows: seq<RawFunding>, bars: seq<Snapshot>,
                      candidates: seq<Option<SignalCandidate>>)
    requires |bars| == |candidates| && CanOpen(config)
    requires PositiveBars(bars) && PositiveCandidates(candidates)
    ensures Final(config, rows, bars, candidates).Ok?
  {
    hide Run, AllBalanced, TradesTell, CanOpen, PositiveCandidates, ForceClosedAll, Booked;
    RunSucceeds(config, rows, bars, candidates, |bars|);
    RunTells(config, rows, bars, candidates, |bars|);
    if |bars| > 0 {
      var b, last := Run(config, rows, bars, candidates, |bars|).value, bars[|bars| - 1];
      ForceAllSucceeds(config, rows, b.open, last.timestamp, last.price, |b.open|);
    }
  }
}
