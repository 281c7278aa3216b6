/**
 What every trade of a whole run was charged and could lose: funding for exactly the samples of its
 holding interval, and a gross loss within the bound its sizing set.
 */
module LedgerTrades {
  import opened Prelude
  import opened Models
  import opened Funding
  import opened FillModel
  import opened RuntimeLimits
  import opened Ledger
  import opened LedgerShape
  import opened LedgerSettlement
  import opened LossBound
  import opened LedgerRuns
  import opened LedgerPartials
  import Governance
  import SignalEngine

  ghost predicate InOrder(bars: seq<Snapshot>) {
    forall i, j | 0 <= i < j < |bars| :: bars[i].timestamp <= bars[j].timestamp
  }

  // ---------------------------------------------------------------- funding

  ghost predicate AllAccounted(rows: seq<RawFunding>, open: seq<Record>, at: int) {
    forall i | 0 <= i < |open| :: FundingAccounted(rows, open[i]) && LastAccrual(open[i]) == at
  }

  ghost predicate AllCharged(config: RunConfig, rows: seq<RawFunding>, closed: seq<ClosedTradeRecord>,
                             split: nat -> Option<int>) {
    forall i | 0 <= i < |closed| :: FundingCharged(config, rows, closed[i].trade, split(closed[i].trade.tradeId))
  }

  lemma OpenedOwesNothing(config: RunConfig, rows: seq<RawFunding>, b: Books, now: int, c: SignalCandidate, size: real,
                          leverage: int)
    requires NewRecord(config, b, now, c, size, leverage).Ok?
    ensures var r := NewRecord(config, b, now, c, size, leverage).value;
            FundingAccounted(rows, r) && LastAccrual(r) == now
  {
    var r := NewRecord(config, b, now, c, size, leverage).value;
    NoFundingOnNothing(r.position.direction, Notional(r.position.entryPrice, r.initialSize), now, now, rows);
    hide Simulate, FundingPaid, Notional;
  }

  lemma SweepCharges(config: RunConfig, rows: seq<RawFunding>, b: Books, s: Snapshot, before: int,
                     split: nat -> Option<int>, next: nat -> Option<int>)
    requires AllBalanced(config, b.open) && AllAccounted(rows, b.open, before) && before <= s.timestamp
    requires SplitsAdvance(config, rows, b, s, split, next) && Sweep(config, rows, b.open, s, |b.open|).Ok?
    ensures AllAccounted(rows, Sweep(config, rows, b.open, s, |b.open|).value.remaining, s.timestamp)
    ensures AllCharged(config, rows, Sweep(config, rows, b.open, s, |b.open|).value.closed, next)
  {
    hide StepRecord, Sweep, Balanced, FundingAccounted, FundingCharged, LastAccrual, TakesPartial, SplitOf;
    SweepSources(config, rows, b.open, s, |b.open|);
    forall i | 0 <= i < |b.open| && StepRecord(config, rows, b.open[i], s).Ok?
      ensures var outcome := StepRecord(config, rows, b.open[i], s).value;
              && (outcome.Kept? ==>
                    FundingAccounted(rows, outcome.record) && LastAccrual(outcome.record) == s.timestamp)
              && (outcome.Settled? ==>
                    FundingCharged(config, rows, outcome.closed.trade, next(outcome.closed.trade.tradeId)))
    {
      StepKeepsFunding(config, rows, b.open[i], s);
      StepTellsPartial(config, rows, b.open[i], s);
      StepKeepsIdentity(config, rows, b.open[i], s);
    }
  }

  lemma BarCharges(config: RunConfig, rows: seq<RawFunding>, b: Books, s: Snapshot, candidate: Option<SignalCandidate>,
                   before: int, split: nat -> Option<int>, next: nat -> Option<int>)
    requires AllBalanced(config, b.open) && AllAccounted(rows, b.open, before) && before <= s.timestamp
    requires SplitsAdvance(config, rows, b, s, split, next)
    requires AllCharged(config, rows, b.closed, split) && Step(config, rows, b, s, candidate).Ok?
    ensures AllAccounted(rows, Step(config, rows, b, s, candidate).value.books.open, s.timestamp)
    ensures AllCharged(config, rows, Step(config, rows, b, s, candidate).value.books.closed, next)
  {
    hide Sweep, Decide, Balanced, FundingAccounted, FundingCharged, LastAccrual, Gated, NewRecord, Booked,
        TakesPartial, SplitOf;
    var swept, mid, decided := StepShape(config, rows, b, s, candidate);
    hide Step;
    SweepCharges(config, rows, b, s, before, split, next);
    BookedCloses(b, swept.closed);
    DecideShape(config, mid, s.timestamp, candidate);
    if decided.decision.Executed? {
      var gate := Gated(config, mid, s.timestamp, candidate);
      OpenedOwesNothing(config, rows, mid, s.timestamp, gate.candidate, gate.size, gate.leverage);
    }
  }

  /** After every bar of a run in time order the funding of each open position is accounted for up
      to that bar, and each closed trade was charged for its own holding interval, in two phases just
      when it took a partial exit and split at the bar it took it. */
  lemma {:induction false} RunCharges(config: RunConfig, rows: seq<RawFunding>, bars: seq<Snapshot>,
                                      candidates: seq<Option<SignalCandidate>>, n: nat)
    requires n <= |bars| == |candidates| && InOrder(bars) && Run(config, rows, bars, candidates, n).Ok?
    ensures n > 0 ==> AllAccounted(rows, Run(config, rows, bars, candidates, n).value.open, bars[n - 1].timestamp)
    ensures n == 0 ==> Run(config, rows, bars, candidates, n).value.open == []
    ensures AllCharged(config, rows, Run(config, rows, bars, candidates, n).value.closed,
                       Splits(config, rows, bars, candidates, n))
  {
    hide Step, FundingAccounted, FundingCharged, AllBalanced, TradesTell, LastAccrual, SplitsAdvance, OpenSplits,
        NoneBeyond, Splits;
    if n > 0 {
      RunStep(config, rows, bars, candidates, n);
      RunCharges(config, rows, bars, candidates, n - 1);
      RunTells(config, rows, bars, candidates, n - 1);
      RunSplits(config, rows, bars, candidates, n);
      var b, s := Run(config, rows, bars, candidates, n - 1).value, bars[n - 1];
      hide Run;
      BarCharges(config, rows, b, s, candidates[n - 1], if n == 1 then s.timestamp else bars[n - 2].timestamp,
                 Splits(config, rows, bars, candidates, n - 1), Splits(config, rows, bars, candidates, n));
    }
  }

  lemma ForcedIsCharged(config: RunConfig, rows: seq<RawFunding>, r: Record, now: int, price: real)
    requires Balanced(config, r) && FundingAccounted(rows, r) && LastAccrual(r) == now
    requires ForceClosed(config, rows, r, now, price).Ok?
    ensures FundingCharged(config, rows, ForceClosed(config, rows, r, now, price).value.trade, SplitOf(r))
    ensures ForceClosed(config, rows, r, now, price).value.trade.tradeId == r.tradeId
  {
    hide ForceClosed, Balanced, FundingAccounted, Settle, FundingCharged, LastAccrual, SplitOf;
    var m := ForceClosedFrom(config, rows, r, now, price);
    SettledFunding(config, rows, m, price, EndOfBacktest, now);
    SettledFields(config, m, price, EndOfBacktest, now);
  }

  /** Every trade of a finished run was charged for exactly the samples of its holding interval: on
      the full size if it never took a partial exit, else on the full size up to and including the
      bar of its partial exit and on the remainder after it. */
  lemma FinalCharges(config: RunConfig, rows: seq<RawFunding>, bars: seq<Snapshot>,
                     candidates: seq<Option<SignalCandidate>>)
    requires |bars| == |candidates| && InOrder(bars) && Final(config, rows, bars, candidates).Ok?
    ensures AllCharged(config, rows, Final(config, rows, bars, candidates).value.closed,
                       Splits(config, rows, bars, candidates, |bars|))
  {
    hide Run, Balanced, FundingAccounted, FundingCharged, ForceClosedAll, ForceClosed, Booked, TradesTell, LastAccrual,
        Splits, SplitOf;
    hide SplitsAdvance, NoneBeyond;
    RunCharges(config, rows, bars, candidates, |bars|);
    RunTells(config, rows, bars, candidates, |bars|);
    RunSplits(config, rows, bars, candidates, |bars|);
    var b, split := Run(config, rows, bars, candidates, |bars|).value, Splits(config, rows, bars, candidates, |bars|);
    if |bars| > 0 && |b.open| > 0 {
      var last := bars[|bars| - 1];
      var closed := ForceClosedAll(config, rows, b.open, last.timestamp, last.price, |b.open|).value;
      ForceSources(config, rows, b.open, last.timestamp, last.price, |b.open|);
      forall i | 0 <= i < |closed|
        ensures FundingCharged(config, rows, closed[i].trade, split(closed[i].trade.tradeId)) {
        ForcedIsCharged(config, rows, b.open[i], last.timestamp, last.price);
      }
      BookedCloses(b, closed);
    }
  }

  // ---------------------------------------------------------------- losses

  /** The candidates carry the time of their bar and a stop on the losing side of the entry. */
  /** While no rate is negative, what a long makes is at most its profit before costs less its fees, and a
      short makes no less than that. */
  ghost predicate FundingSided(t: TradeLog) {
    if t.direction.Long? then t.pnlAbs <= Gross(t) - t.fees && t.fundingPaid >= 0.0
    else t.pnlAbs >= Gross(t) - t.fees && t.fundingPaid <= 0.0
  }

  lemma ChargedSided(config: RunConfig, rows: seq<RawFunding>, t: TradeLog, split: Option<int>)
    requires NoNegativeRate(rows) && FundingCharged(config, rows, t, split)
    ensures FundingSided(t)
  {
    hide FundingPaid, NoNegativeRate, Notional, Remaining;
    var full, rest := Notional(t.entryPrice, t.size), Notional(t.entryPrice, Remaining(config, t.size));
    FundingSign(t.direction, full, t.openedAt, t.closedAt, rows);
    if split.Some? {
      FundingSign(t.direction, full, t.openedAt, split.value, rows);
      FundingSign(t.direction, rest, split.value, t.closedAt, rows);
    }
  }

  /** So over finished runs the price the trade reports says what it made before costs, and funding is a cost of
      every long and an income of every short. */
  lemma FinalFundingSided(config: RunConfig, rows: seq<RawFunding>, bars: seq<Snapshot>,
                          candidates: seq<Option<SignalCandidate>>, end: Books)
    requires |bars| == |candidates| && InOrder(bars) && Final(config, rows, bars, candidates) == Ok(end)
    requires NoNegativeRate(rows) && SaneSlippage(config.fill, Market) && SlippageBps(config.fill, Market) < BPS
    ensures forall i | 0 <= i < |end.closed| ::
              var t := end.closed[i].trade;
              && FundingSided(t)
              && (t.size >= TINY && t.direction.Long? ==> t.pnlAbs <= GrossFromPrices(t) - t.fees)
              && (t.size >= TINY && t.direction.Short? ==> t.pnlAbs >= GrossFromPrices(t) - t.fees)
  {
    FinalCharges(config, rows, bars, candidates);
    FinalConserves(config, rows, bars, candidates);
    hide Final, FundingCharged, InOrder, NoNegativeRate, GrossFromPrices, FeesFromPrices, TrailingLegKeepsProfit,
        Splits;
    var split := Splits(config, rows, bars, candidates, |bars|);
    forall i | 0 <= i < |end.closed| ensures FundingSided(end.closed[i].trade) {
      ChargedSided(config, rows, end.closed[i].trade, split(end.closed[i].trade.tradeId));
    }
  }

  ghost predicate WellPlacedCandidates(bars: seq<Snapshot>, candidates: seq<Option<SignalCandidate>>)
    requires |bars| == |candidates|
  {
    forall i | 0 <= i < |bars| && candidates[i].Some? :: SignalEngine.WellPlaced(candidates[i].value, bars[i].timestamp)
  }

  ghost predicate WellFormedCandles(bars: seq<Snapshot>) {
    forall i | 0 <= i < |bars| :: WellFormedCandle(LatestCandle(bars[i]))
  }

  /** The equity curve shows the equity an open position was sized with. */
  ghost predicate SizedOnCurve(config: RunConfig, curve: seq<EquityPoint>, r: Record) {
    exists k | 0 <= k < |curve| :: curve[k].at == r.position.openedAt && Sized(config, r, curve[k].equity)
  }

  ghost predicate AllSized(config: RunConfig, curve: seq<EquityPoint>, open: seq<Record>) {
    forall i | 0 <= i < |open| :: SizedOnCurve(config, curve, open[i])
  }

  /** A trade that the exit rules closed lost at most the bound set by the equity the curve shows
      at the time it was opened. */
  ghost predicate LossBounded(config: RunConfig, curve: seq<EquityPoint>, c: ClosedTradeRecord, split: Option<int>) {
    !c.trade.exitReason.EndOfBacktest? && Covered(config, c.trade.exitReason, split) ==>
      exists k | 0 <= k < |curve| ::
        && curve[k].at == c.trade.openedAt
        && Gross(c.trade) >= -WorstLoss(config, c.trade.direction, curve[k].equity, c.position.leverage)
  }

  ghost predicate AllLossesBounded(config: RunConfig, curve: seq<EquityPoint>, closed: seq<ClosedTradeRecord>,
                                   split: nat -> Option<int>) {
    forall i | 0 <= i < |closed| :: LossBounded(config, curve, closed[i], split(closed[i].trade.tradeId))
  }

  lemma StepKeepsSized(config: RunConfig, rows: seq<RawFunding>, r: Record, s: Snapshot, equity: real)
    requires Balanced(config, r) && Sized(config, r, equity) && StepRecord(config, rows, r, s).Ok?
    ensures var outcome := StepRecord(config, rows, r, s).value;
            && (outcome.Kept? ==> Sized(config, outcome.record, equity))
            && (outcome.Settled? && SaneFills(config) && WellFormedCandle(LatestCandle(s))
                && Covered(config, outcome.closed.trade.exitReason, SplitOf(r)) ==>
                  Gross(outcome.closed.trade) >= -WorstLoss(config, outcome.closed.trade.direction, equity,
                                                            outcome.closed.position.leverage))
  {
    hide StepRecord, Balanced, Marked, Exit, Settle, WorstLoss, Gross, Notional, FilledAt, Risked, Levered, Slippage,
        SplitOf, Covered;
    StepKeepsIdentity(config, rows, r, s);
    var outcome := StepRecord(config, rows, r, s).value;
    if outcome.Settled? && SaneFills(config) && WellFormedCandle(LatestCandle(s))
       && Covered(config, outcome.closed.trade.exitReason, SplitOf(r)) {
      SettledFrom(config, rows, r, s);
      MarkedKeeps(config, rows, r, s);
      MarkedSplit(config, rows, r, s);
      var m := Marked(config, rows, r, s);
      assert Sized(config, m, equity);
      SettledFields(config, m, Exit(config, m, s).exitPrice.value, Exit(config, m, s).reason.value, s.timestamp);
      SettledLossIsBounded(config, m, s, equity);
    }
  }

  lemma StepOnCurve(config: RunConfig, rows: seq<RawFunding>, r: Record, s: Snapshot, curve: seq<EquityPoint>)
    requires Balanced(config, r) && SizedOnCurve(config, curve, r) && StepRecord(config, rows, r, s).Ok?
    requires SaneFills(config) && WellFormedCandle(LatestCandle(s))
    ensures var outcome := StepRecord(config, rows, r, s).value;
            && (outcome.Kept? ==> SizedOnCurve(config, curve, outcome.record))
            && (outcome.Settled? ==> LossBounded(config, curve, outcome.closed, SplitOf(r)))
  {
    hide StepRecord, Balanced, Sized, WorstLoss, Gross, SaneFills, WellFormedCandle, SplitOf, Covered;
    var k :| 0 <= k < |curve| && curve[k].at == r.position.openedAt && Sized(config, r, curve[k].equity);
    StepKeepsIdentity(config, rows, r, s);
    StepKeepsSized(config, rows, r, s, curve[k].equity);
  }

  lemma SweepBoundsLosses(config: RunConfig, rows: seq<RawFunding>, b: Books, s: Snapshot, curve: seq<EquityPoint>,
                          split: nat -> Option<int>, next: nat -> Option<int>)
    requires AllBalanced(config, b.open) && AllSized(config, curve, b.open)
             && Sweep(config, rows, b.open, s, |b.open|).Ok?
    requires SaneFills(config) && WellFormedCandle(LatestCandle(s)) && SplitsAdvance(config, rows, b, s, split, next)
    ensures AllSized(config, curve, Sweep(config, rows, b.open, s, |b.open|).value.remaining)
    ensures AllLossesBounded(config, curve, Sweep(config, rows, b.open, s, |b.open|).value.closed, next)
  {
    hide StepRecord, Sweep, Balanced, SizedOnCurve, LossBounded, SaneFills, WellFormedCandle, TakesPartial, SplitOf;
    SweepSources(config, rows, b.open, s, |b.open|);
    forall i | 0 <= i < |b.open| && StepRecord(config, rows, b.open[i], s).Ok?
      ensures var outcome := StepRecord(config, rows, b.open[i], s).value;
              && (outcome.Kept? ==> SizedOnCurve(config, curve, outcome.record))
              && (outcome.Settled? ==> LossBounded(config, curve, outcome.closed, next(outcome.closed.trade.tradeId)))
    {
      StepOnCurve(config, rows, b.open[i], s, curve);
      StepTellsPartial(config, rows, b.open[i], s);
      StepKeepsIdentity(config, rows, b.open[i], s);
    }
  }

  lemma SizedOnLonger(config: RunConfig, curve: seq<EquityPoint>, p: EquityPoint, r: Record)
    requires SizedOnCurve(config, curve, r)
    ensures SizedOnCurve(config, curve + [p], r)
  {
    hide Sized;
    var k :| 0 <= k < |curve| && curve[k].at == r.position.openedAt && Sized(config, r, curve[k].equity);
    assert (curve + [p])[k] == curve[k];
  }

  lemma BoundedOnLonger(config: RunConfig, curve: seq<EquityPoint>, p: EquityPoint, c: ClosedTradeRecord,
                        split: Option<int>)
    requires LossBounded(config, curve, c, split)
    ensures LossBounded(config, curve + [p], c, split)
  {
    hide Gross, WorstLoss, Covered;
    if !c.trade.exitReason.EndOfBacktest? && Covered(config, c.trade.exitReason, split) {
      var k :| 0 <= k < |curve| && curve[k].at == c.trade.openedAt
               && Gross(c.trade) >= -WorstLoss(config, c.trade.direction, curve[k].equity, c.position.leverage);
      assert (curve + [p])[k] == curve[k];
    }
  }

  lemma CurveGrows(config: RunConfig, curve: seq<EquityPoint>, p: EquityPoint, open: seq<Record>,
                   closed: seq<ClosedTradeRecord>, split: nat -> Option<int>)
    requires AllSized(config, curve, open) && AllLossesBounded(config, curve, closed, split)
    ensures AllSized(config, curve + [p], open) && AllLossesBounded(config, curve + [p], closed, split)
  {
    hide SizedOnCurve, LossBounded;
    forall i | 0 <= i < |open| ensures SizedOnCurve(config, curve + [p], open[i]) {
      SizedOnLonger(config, curve, p, open[i]);
    }
    forall i | 0 <= i < |closed| ensures LossBounded(config, curve + [p], closed[i], split(closed[i].trade.tradeId)) {
      BoundedOnLonger(config, curve, p, closed[i], split(closed[i].trade.tradeId));
    }
  }

  /** A position opened at a bar is sized with the equity the curve gets for that bar. */
  lemma NewIsSized(config: RunConfig, b: Books, s: Snapshot, candidate: Option<SignalCandidate>,
                   curve: seq<EquityPoint>)
    requires Decide(config, b, s.timestamp, candidate).Ok?
             && Decide(config, b, s.timestamp, candidate).value.decision.Executed?
    requires candidate.Some? ==> SignalEngine.WellPlaced(candidate.value, s.timestamp)
    ensures var gate := Gated(config, b, s.timestamp, candidate);
            && gate.Pass?
            && NewRecord(config, b, s.timestamp, gate.candidate, gate.size, gate.leverage).Ok?
            && SizedOnCurve(config, curve + [EquityPoint(s.timestamp, b.equity)],
                            NewRecord(config, b, s.timestamp, gate.candidate, gate.size, gate.leverage).value)
  {
    hide Decide, Gated, Sized, RiskEngine.Evaluate, Governance.PassesGates, Runtime;
    DecideShape(config, b, s.timestamp, candidate);
    PassShape(config, b, s.timestamp, candidate);
    var gate := Gated(config, b, s.timestamp, candidate);
    var runtime := Runtime(s.timestamp, b.opens, b.closed, b.events, config.StartingEquity());
    OpenedIsSized(config, b, s.timestamp, gate.candidate, runtime.ForRisk(), gate.size, gate.leverage);
    var longer := curve + [EquityPoint(s.timestamp, b.equity)];
    assert longer[|curve|].at == s.timestamp && longer[|curve|].equity == b.equity;
  }

  lemma BarBoundsLosses(config: RunConfig, rows: seq<RawFunding>, b: Books, s: Snapshot,
                        candidate: Option<SignalCandidate>, split: nat -> Option<int>, next: nat -> Option<int>)
    requires AllBalanced(config, b.open) && AllSized(config, b.curve, b.open)
    requires AllLossesBounded(config, b.curve, b.closed, split) && SplitsAdvance(config, rows, b, s, split, next)
    requires SaneFills(config) && WellFormedCandle(LatestCandle(s))
    requires candidate.Some? ==> SignalEngine.WellPlaced(candidate.value, s.timestamp)
    requires Step(config, rows, b, s, candidate).Ok?
    ensures var b' := Step(config, rows, b, s, candidate).value.books;
            AllSized(config, b'.curve, b'.open) && AllLossesBounded(config, b'.curve, b'.closed, next)
  {
    hide Sweep, Decide, Balanced, SizedOnCurve, LossBounded, SaneFills, WellFormedCandle, Gated, NewRecord, Booked;
    hide SignalEngine.WellPlaced, TakesPartial, SplitOf;
    var swept, mid, decided := StepShape(config, rows, b, s, candidate);
    hide Step;
    SweepBoundsLosses(config, rows, b, s, b.curve, split, next);
    BookedCloses(b, swept.closed);
    CurveGrows(config, b.curve, EquityPoint(s.timestamp, mid.equity), swept.remaining, mid.closed, next);
    DecideShape(config, mid, s.timestamp, candidate);
    if decided.decision.Executed? {
      NewIsSized(config, mid, s, candidate, b.curve);
    }
  }

  lemma {:induction false} RunBoundsLosses(config: RunConfig, rows: seq<RawFunding>, bars: seq<Snapshot>,
                                           candidates: seq<Option<SignalCandidate>>, n: nat)
    requires n <= |bars| == |candidates| && WellPlacedCandidates(bars, candidates) && WellFormedCandles(bars)
    requires SaneFills(config) && Run(config, rows, bars, candidates, n).Ok?
    ensures var b := Run(config, rows, bars, candidates, n).value;
            AllSized(config, b.curve, b.open)
            && AllLossesBounded(config, b.curve, b.closed, Splits(config, rows, bars, candidates, n))
  {
    hide Step, AllBalanced, TradesTell, SizedOnCurve, LossBounded, SaneFills, WellFormedCandle, SignalEngine.WellPlaced;
    hide SplitsAdvance, OpenSplits, NoneBeyond, Splits;
    if n > 0 {
      RunStep(config, rows, bars, candidates, n);
      RunBoundsLosses(config, rows, bars, candidates, n - 1);
      RunTells(config, rows, bars, candidates, n - 1);
      RunSplits(config, rows, bars, candidates, n);
      var b, s := Run(config, rows, bars, candidates, n - 1).value, bars[n - 1];
      hide Run;
      BarBoundsLosses(config, rows, b, s, candidates[n - 1],
                      Splits(config, rows, bars, candidates, n - 1), Splits(config, rows, bars, candidates, n));
    }
  }

  /** Loss bound over every finished run: with well-formed candles and slippage that never helps the
      trader, a trade closed before the end of the run loses, before fees and funding, at most
      equity x risk fraction (for a short, plus exit slippage on it) plus equity x leverage x both
      slippages, at the equity the curve shows for the bar it was opened on. Stops and timeouts without
      a partial exit are covered whatever the configuration; exits at or after a target only when the
      configured reward-to-risk keeps targets off the losing side. */
  lemma FinalBoundsLosses(config: RunConfig, rows: seq<RawFunding>, bars: seq<Snapshot>,
                          candidates: seq<Option<SignalCandidate>>)
    requires |bars| == |candidates| && WellPlacedCandidates(bars, candidates) && WellFormedCandles(bars)
    requires SaneFills(config) && Final(config, rows, bars, candidates).Ok?
    ensures var b := Final(config, rows, bars, candidates).value;
            AllLossesBounded(config, b.curve, b.closed, Splits(config, rows, bars, candidates, |bars|))
  {
    hide Run, AllBalanced, TradesTell, SaneFills, WellFormedCandle, ForceClosedAll, Booked, AllSized, Sized, Gross,
        WorstLoss;
    hide Splits;
    RunBoundsLosses(config, rows, bars, candidates, |bars|);
    RunTells(config, rows, bars, candidates, |bars|);
    var b, split := Run(config, rows, bars, candidates, |bars|).value, Splits(config, rows, bars, candidates, |bars|);
    if |bars| > 0 && |b.open| > 0 {
      var last := bars[|bars| - 1];
      var closed := ForceClosedAll(config, rows, b.open, last.timestamp, last.price, |b.open|).value;
      ForceSources(config, rows, b.open, last.timestamp, last.price, |b.open|);
      BookedCloses(b, closed);
      BookedKeeps(b, closed);
      var point := EquityPoint(last.timestamp, Booked(b, closed).equity);
      CurveGrows(config, b.curve, point, b.open, b.closed, split);
      hide LossBounded;
      forall i | 0 <= i < |closed|
        ensures LossBounded(config, b.curve + [point], closed[i], split(closed[i].trade.tradeId)) {
        ForcedIsExempt(config, rows, b, i, last.timestamp, last.price, b.curve + [point], closed[i],
                       split(closed[i].trade.tradeId));
      }
    }
  }

  lemma ForcedIsExempt(config: RunConfig, rows: seq<RawFunding>, b: Books, i: nat, now: int, price: real,
                       curve: seq<EquityPoint>, c: ClosedTradeRecord, split: Option<int>)
    requires i < |b.open| && AllBalanced(config, b.open) && ForceClosed(config, rows, b.open[i], now, price) == Ok(c)
    ensures LossBounded(config, curve, c, split)
  {
    hide Balanced, ForceClosed;
    ForceClosedTells(config, rows, b.open[i], now, price);
  }
}
