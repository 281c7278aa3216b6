/**
 What a trade reports besides its money: how far the market went against it and in its favour, over exactly the
 bars of its life, and the slippage of its fills; and how signals, positions and trades are numbered.
 */
module LedgerReports {
  import opened Prelude
  import opened RealArith
  import opened Models
  import opened Funding
  import opened FillModel
  import opened RuntimeLimits
  import opened Ledger
  import opened LedgerShape
  import opened LedgerSettlement
  import opened LedgerRuns
  import Governance
  import LedgerGates
  import Performance
  import RiskEngine

  ghost predicate RisingCandles(bars: seq<Snapshot>) {
    forall i, j | 0 <= i < j < |bars| :: LatestCandle(bars[i]).openTime < LatestCandle(bars[j]).openTime
  }

  /** A bar after the opening of the trade and not after its closing. */
  predicate Lived(bars: seq<Snapshot>, t: TradeLog, k: nat)
    requires k < |bars|
  {
    t.openedAt < bars[k].timestamp <= t.closedAt
  }

  /** What the whole trade would have made, before costs, at this price. */
  function Gains(t: TradeLog, price: real): real {
    Times(t.direction.Signed(price - t.entryPrice), t.size)
  }

  function Worst(t: TradeLog, c: Candle): real {
    Gains(t, if t.direction.Long? then c.low else c.high)
  }

  function Best(t: TradeLog, c: Candle): real {
    Gains(t, if t.direction.Long? then c.high else c.low)
  }

  /** A trade closed by the end of the backtest would have gained this at the last price. */
  predicate GainsAtEnd(bars: seq<Snapshot>, t: TradeLog, gain: real) {
    t.exitReason.EndOfBacktest? && |bars| > 0 && Gains(t, bars[|bars| - 1].price) == gain
  }

  /** The excursions bound what the trade would have made at any bar of its life, and some bar reached them. */
  ghost predicate ExcursionsTell(bars: seq<Snapshot>, t: TradeLog) {
    && t.mae >= 0.0 && t.mfe >= 0.0
    && (forall k: nat | k < |bars| && Lived(bars, t, k) ::
          Worst(t, LatestCandle(bars[k])) >= -t.mae && Best(t, LatestCandle(bars[k])) <= t.mfe)
    && (t.mae > 0.0 ==>
          || GainsAtEnd(bars, t, -t.mae)
          || exists k: nat | k < |bars| && Lived(bars, t, k) :: Worst(t, LatestCandle(bars[k])) == -t.mae)
    && (t.mfe > 0.0 ==>
          || GainsAtEnd(bars, t, t.mfe)
          || exists k: nat | k < |bars| && Lived(bars, t, k) :: Best(t, LatestCandle(bars[k])) == t.mfe)
  }

  function EntryBps(config: RunConfig): real {
    if config.entryOrderType.Limit? then config.fill.slippageBpsLimit else config.fill.slippageBpsMarket
  }

  /** The slippage reported is the average over the entry and the exits, of which there are two after a partial exit. */
  predicate SlippageTells(config: RunConfig, t: TradeLog) {
    var entry, exit := EntryBps(config), config.fill.slippageBpsMarket;
    var once := Times(t.slippageBps, 2.0) == entry + exit;
    var twice := Times(t.slippageBps, 3.0) == entry + exit + exit;
    match t.exitReason
    case StopLoss => once
    case TakeProfit => once
    case TrailingStop => twice
    case _ => once || twice
  }

  ghost predicate Reports(config: RunConfig, bars: seq<Snapshot>, t: TradeLog) {
    ExcursionsTell(bars, t) && SlippageTells(config, t)
  }

  // ---------------------------------------------------------------- the candles of a position

  /** The candles of the bars after the opening and before the n-th, and no others. */
  ghost predicate Seen(bars: seq<Snapshot>, n: nat, openedAt: int, path: seq<Candle>)
    requires n <= |bars|
  {
    && (forall k | 0 <= k < n && bars[k].timestamp > openedAt :: LatestCandle(bars[k]) in path)
    && (forall c | c in path ::
          exists k | 0 <= k < n :: bars[k].timestamp > openedAt && c == LatestCandle(bars[k]))
  }

  lemma SeenGrows(bars: seq<Snapshot>, n: nat, openedAt: int, path: seq<Candle>)
    requires n < |bars| && RisingCandles(bars) && Seen(bars, n, openedAt, path) && bars[n].timestamp > openedAt
    ensures Seen(bars, n + 1, openedAt, AppendCandle(path, LatestCandle(bars[n])))
    ensures |AppendCandle(path, LatestCandle(bars[n]))| > 0
  {
    hide LatestCandle;
    assert |path| > 0 ==> path[|path| - 1] in path;
  }

  /** A path takes a candle exactly when it is newer than all in it, and so stays in order. */
  lemma PathRises(path: seq<Candle>, c: Candle)
    requires forall i, j | 0 <= i < j < |path| :: path[i].openTime < path[j].openTime
    ensures var longer := AppendCandle(path, c);
            && (forall i, j | 0 <= i < j < |longer| :: longer[i].openTime < longer[j].openTime)
            && longer == if forall p | p in path :: p.openTime < c.openTime then path + [c] else path
  {
    assert |path| > 0 ==> path[|path| - 1] in path;
  }

  /** Without a candle the price of the bar stands in for one of a quarter of an hour, as it does at the end. */
  lemma StandInCandle(s: Snapshot)
    ensures s.lastCandle == None ==> LatestCandle(s) == ClosingCandle(s.timestamp, s.price)
    ensures ClosingCandle(s.timestamp, s.price) == Candle(s.timestamp - 900_000_000, s.price, s.price, s.price)
    ensures s.lastCandle.Some? ==> LatestCandle(s) == s.lastCandle.value
  {
  }

  // ---------------------------------------------------------------- what a record carries

  ghost predicate Slips(config: RunConfig, r: Record) {
    r.slippageSamples == [EntryBps(config)] + if r.partialExitDone then [config.fill.slippageBpsMarket] else []
  }

  /** What a record carries after n bars towards the report of its trade. */
  ghost predicate Carries(config: RunConfig, bars: seq<Snapshot>, n: nat, r: Record)
    requires n <= |bars|
  {
    Seen(bars, n, r.position.openedAt, r.candlesPath) && Slips(config, r)
  }

  lemma MarkedCarries(config: RunConfig, rows: seq<RawFunding>, r: Record, s: Snapshot)
    ensures var m := Marked(config, rows, r, s);
            && m.candlesPath == AppendCandle(r.candlesPath, LatestCandle(s)) && m.slippageSamples == r.slippageSamples
            && m.partialExitDone == r.partialExitDone && m.position.openedAt == r.position.openedAt
  {
    hide FundingPaid, Notional, AppendCandle, TrailDistance, OrLatest, LatestCandle;
  }

  lemma PartialCarries(config: RunConfig, r: Record, decision: RiskEngine.ExitDecision, now: int, candle: Candle)
    requires decision.exitPrice.Some? && TakePartial(config, r, decision, now, candle).Ok? && !r.partialExitDone
    ensures var outcome := TakePartial(config, r, decision, now, candle).value;
            outcome.Kept? ==>
              && outcome.record.candlesPath == r.candlesPath
              && outcome.record.position.openedAt == r.position.openedAt
              && outcome.record.slippageSamples
                 == r.slippageSamples
                    + if outcome.record.partialExitDone then [config.fill.slippageBpsMarket] else []
  {
    hide PartialQty, Notional, Fee, FilledAt, RiskEngine.BuildSettlementMetrics;
  }

  lemma SettledReports(config: RunConfig, r: Record, price: real, reason: ExitReason, now: int)
    requires Settle(config.fill, r, price, reason, now).Ok? && r.initialSize >= 0.0
    ensures var t := Settle(config.fill, r, price, reason, now).value.trade;
            && (t.mae, t.mfe)
               == RiskEngine.MaeMfe(r.position.(size := r.initialSize, stopLoss := r.initialStopLoss), t.exitPrice,
                                    r.candlesPath)
            && t.slippageBps == Average(r.slippageSamples + [config.fill.slippageBpsMarket])
            && t.openedAt == r.position.openedAt && t.closedAt == now && t.exitReason == reason
            && t.direction == r.position.direction && t.entryPrice == r.position.entryPrice && t.size == r.initialSize
  {
    hide Notional, Fee, FilledAt, RiskEngine.MaeMfe, RiskEngine.PnlAbs, RiskEngine.PnlR, EffectivePrice, PerRisk,
        Average;
  }

  lemma AveragesSlips(config: RunConfig, r: Record)
    requires Slips(config, r)
    ensures var entry, exit := EntryBps(config), config.fill.slippageBpsMarket;
            var average := Average(r.slippageSamples + [exit]);
            if r.partialExitDone then Times(average, 3.0) == entry + exit + exit
            else Times(average, 2.0) == entry + exit
  {
    var entry, exit := EntryBps(config), config.fill.slippageBpsMarket;
    hide EntryBps;
    SumOfThree(entry, exit, exit);
    if r.partialExitDone {
      assert r.slippageSamples + [exit] == [entry, exit, exit];
    } else {
      assert r.slippageSamples + [exit] == [entry, exit];
    }
  }

  lemma SumOfThree(a: real, b: real, c: real)
    ensures SumBy([a, b], Performance.Identity()) == a + b
    ensures SumBy([a, b, c], Performance.Identity()) == a + b + c
  {
    var id := Performance.Identity();
    assert [a, b, c][..2] == [a, b] && [a, b][..1] == [a] && [a][..0] == [];
    assert SumBy([a], id) == SumBy([], id) + a;
  }

  /** The excursions over a path that holds the candles of the life of the trade, and at most the last price more. */
  lemma PathTells(bars: seq<Snapshot>, t: TradeLog, p: Position, exitPrice: real, path: seq<Candle>)
    requires p.direction == t.direction && p.entryPrice == t.entryPrice && p.size == t.size >= 0.0 && |path| > 0
    requires (t.mae, t.mfe) == RiskEngine.MaeMfe(p, exitPrice, path)
    requires forall k: nat | k < |bars| && Lived(bars, t, k) :: LatestCandle(bars[k]) in path
    requires forall c | c in path ::
               || (t.exitReason.EndOfBacktest? && |bars| > 0 && c.high == c.low == bars[|bars| - 1].price)
               || exists k: nat | k < |bars| && Lived(bars, t, k) :: c == LatestCandle(bars[k])
    ensures ExcursionsTell(bars, t)
  {
    RiskEngine.ExcursionsAreExtreme(p, exitPrice, path);
    forall price: real ensures RiskEngine.PnlAbs(p, price) == Gains(t, price) {
      RiskEngine.MultipleOfRisk(p, price);
    }
    hide RiskEngine.MaeMfe, RiskEngine.PnlAbs, Gains, LatestCandle, Lived;
  }

  // ---------------------------------------------------------------- one bar

  lemma SettledTells(config: RunConfig, bars: seq<Snapshot>, n: nat, m: Record, price: real, reason: ExitReason)
    requires n < |bars| && Balanced(config, m) && LedgerGates.StrictlyInOrder(bars)
    requires Settle(config.fill, m, price, reason, bars[n].timestamp).Ok?
    requires Seen(bars, n + 1, m.position.openedAt, m.candlesPath) && |m.candlesPath| > 0
    ensures ExcursionsTell(bars, Settle(config.fill, m, price, reason, bars[n].timestamp).value.trade)
  {
    SettledReports(config, m, price, reason, bars[n].timestamp);
    hide Balanced, Settle, RiskEngine.MaeMfe, LatestCandle;
    var t := Settle(config.fill, m, price, reason, bars[n].timestamp).value.trade;
    var whole := m.position.(size := m.initialSize, stopLoss := m.initialStopLoss);
    SizeIsPositive(config, m);
    PathTells(bars, t, whole, t.exitPrice, m.candlesPath);
  }

  lemma SizeIsPositive(config: RunConfig, r: Record)
    requires Balanced(config, r)
    ensures r.initialSize > 0.0
  {
  }

  lemma SettledSlips(config: RunConfig, m: Record, price: real, reason: ExitReason, now: int)
    requires Slips(config, m) && Settle(config.fill, m, price, reason, now).Ok? && m.initialSize >= 0.0
    requires reason == StopLoss || reason == TakeProfit ==> !m.partialExitDone
    requires reason == TrailingStop ==> m.partialExitDone
    ensures SlippageTells(config, Settle(config.fill, m, price, reason, now).value.trade)
  {
    SettledReports(config, m, price, reason, now);
    AveragesSlips(config, m);
    hide Settle, EntryBps, Times, Average, Slips;
  }

  lemma StepReports(config: RunConfig, rows: seq<RawFunding>, bars: seq<Snapshot>, n: nat, r: Record)
    requires n < |bars| && Balanced(config, r) && Carries(config, bars, n, r) && r.position.openedAt < bars[n].timestamp
    requires LedgerGates.StrictlyInOrder(bars) && RisingCandles(bars)
    requires StepRecord(config, rows, r, bars[n]).Ok?
    ensures var outcome := StepRecord(config, rows, r, bars[n]).value;
            && (outcome.Kept? ==> Carries(config, bars, n + 1, outcome.record))
            && (outcome.Settled? ==> Reports(config, bars, outcome.closed.trade))
  {
    var s := bars[n];
    var m := Marked(config, rows, r, s);
    MarkedKeeps(config, rows, r, s);
    MarkedCarries(config, rows, r, s);
    SeenGrows(bars, n, r.position.openedAt, r.candlesPath);
    var exit := Exit(config, m, s);
    var candle := LatestCandle(s);
    RiskEngine.ExitRules(config.risk, m.position, s.timestamp, candle.high, candle.low, candle.close,
                         m.partialExitDone);
    hide RiskEngine.EvaluateExit;
    hide Marked, Balanced, Seen, AppendCandle, Settle, TakePartial, ExcursionsTell, SlippageTells, RisingCandles,
        LedgerGates.StrictlyInOrder, LatestCandle;
    if exit.reason == Some(TakeProfitPartial) {
      PartialCarries(config, m, exit, s.timestamp, candle);
    } else if exit.shouldClose {
      SizeIsPositive(config, m);
      SettledTells(config, bars, n, m, exit.exitPrice.value, exit.reason.value);
      SettledSlips(config, m, exit.exitPrice.value, exit.reason.value, s.timestamp);
    }
  }

  // ---------------------------------------------------------------- whole runs

  ghost predicate AllCarry(config: RunConfig, bars: seq<Snapshot>, n: nat, open: seq<Record>)
    requires n <= |bars|
  {
    forall i | 0 <= i < |open| ::
      Carries(config, bars, n, open[i]) && n > 0 && open[i].position.openedAt <= bars[n - 1].timestamp
  }

  ghost predicate AllReport(config: RunConfig, bars: seq<Snapshot>, closed: seq<ClosedTradeRecord>) {
    forall i | 0 <= i < |closed| :: Reports(config, bars, closed[i].trade)
  }

  lemma SweepReports(config: RunConfig, rows: seq<RawFunding>, bars: seq<Snapshot>, n: nat, open: seq<Record>)
    requires n < |bars| && AllBalanced(config, open) && AllCarry(config, bars, n, open)
    requires LedgerGates.StrictlyInOrder(bars) && RisingCandles(bars)
    requires Sweep(config, rows, open, bars[n], |open|).Ok?
    ensures var swept := Sweep(config, rows, open, bars[n], |open|).value;
            AllCarry(config, bars, n + 1, swept.remaining) && AllReport(config, bars, swept.closed)
  {
    hide StepRecord, Sweep, Balanced, Carries, Reports, RisingCandles;
    SweepSources(config, rows, open, bars[n], |open|);
    forall i | 0 <= i < |open| && StepRecord(config, rows, open[i], bars[n]).Ok?
      ensures var outcome := StepRecord(config, rows, open[i], bars[n]).value;
              && (outcome.Kept? ==>
                    && Carries(config, bars, n + 1, outcome.record)
                    && outcome.record.position.openedAt <= bars[n].timestamp)
              && (outcome.Settled? ==> Reports(config, bars, outcome.closed.trade))
    {
      StepReports(config, rows, bars, n, open[i]);
      StepKeepsIdentity(config, rows, open[i], bars[n]);
    }
  }

  lemma NewCarries(config: RunConfig, bars: seq<Snapshot>, n: nat, b: Books, c: SignalCandidate, size: real,
                   leverage: int)
    requires n < |bars| && LedgerGates.StrictlyInOrder(bars)
    requires NewRecord(config, b, bars[n].timestamp, c, size, leverage).Ok?
    ensures var r := NewRecord(config, b, bars[n].timestamp, c, size, leverage).value;
            Carries(config, bars, n + 1, r) && r.position.openedAt == bars[n].timestamp
  {
    hide LatestCandle, FilledAt, Notional, Fee;
  }

  lemma BarReports(config: RunConfig, rows: seq<RawFunding>, bars: seq<Snapshot>, n: nat, b: Books,
                   candidate: Option<SignalCandidate>)
    requires n < |bars| && AllBalanced(config, b.open) && AllCarry(config, bars, n, b.open)
    requires AllReport(config, bars, b.closed)
    requires LedgerGates.StrictlyInOrder(bars) && RisingCandles(bars)
    requires Step(config, rows, b, bars[n], candidate).Ok?
    ensures var b' := Step(config, rows, b, bars[n], candidate).value.books;
            AllCarry(config, bars, n + 1, b'.open) && AllReport(config, bars, b'.closed)
  {
    hide Sweep, Booked, Decide, Balanced, Carries, Reports, Gated, NewRecord, RisingCandles;
    hide LedgerGates.StrictlyInOrder;
    var swept, mid, decided := StepShape(config, rows, b, bars[n], candidate);
    hide Step;
    SweepReports(config, rows, bars, n, b.open);
    BookedCloses(b, swept.closed);
    DecideShape(config, mid, bars[n].timestamp, candidate);
    if decided.decision.Executed? {
      var gate := Gated(config, mid, bars[n].timestamp, candidate);
      NewCarries(config, bars, n, mid, gate.candidate, gate.size, gate.leverage);
    }
  }

  lemma {:induction false} RunReports(config: RunConfig, rows: seq<RawFunding>, bars: seq<Snapshot>,
                                      candidates: seq<Option<SignalCandidate>>, n: nat)
    requires n <= |bars| == |candidates| && Run(config, rows, bars, candidates, n).Ok?
    requires LedgerGates.StrictlyInOrder(bars) && RisingCandles(bars)
    ensures AllCarry(config, bars, n, Run(config, rows, bars, candidates, n).value.open)
    ensures AllReport(config, bars, Run(config, rows, bars, candidates, n).value.closed)
  {
    hide Step, AllBalanced, TradesTell, Carries, Reports, LedgerGates.StrictlyInOrder, RisingCandles;
    if n > 0 {
      RunStep(config, rows, bars, candidates, n);
      RunReports(config, rows, bars, candidates, n - 1);
      RunTells(config, rows, bars, candidates, n - 1);
      var b := Run(config, rows, bars, candidates, n - 1).value;
      BarReports(config, rows, bars, n - 1, b, candidates[n - 1]);
    }
  }

  lemma ForcedReports(config: RunConfig, rows: seq<RawFunding>, bars: seq<Snapshot>, r: Record)
    requires |bars| > 0 && Balanced(config, r) && Carries(config, bars, |bars|, r)
    requires LedgerGates.StrictlyInOrder(bars)
    requires ForceClosed(config, rows, r, bars[|bars| - 1].timestamp, bars[|bars| - 1].price).Ok?
    ensures Reports(config, bars,
                    ForceClosed(config, rows, r, bars[|bars| - 1].timestamp, bars[|bars| - 1].price).value.trade)
  {
    var last := bars[|bars| - 1];
    var accrued := Accrued(r, rows, last.timestamp);
    var path := AppendCandle(accrued.candlesPath, ClosingCandle(last.timestamp, last.price));
    var m := accrued.(candlesPath := path);
    AccruedCarries(r, rows, last.timestamp);
    SizeIsPositive(config, r);
    SettledReports(config, m, last.price, EndOfBacktest, last.timestamp);
    SettledSlips(config, m, last.price, EndOfBacktest, last.timestamp);
    hide Balanced, Settle, Accrued, Slips, SlippageTells, RiskEngine.MaeMfe, LatestCandle;
    var t := Settle(config.fill, m, last.price, EndOfBacktest, last.timestamp).value.trade;
    var whole := m.position.(size := m.initialSize, stopLoss := m.initialStopLoss);
    PathTells(bars, t, whole, t.exitPrice, path);
  }

  lemma AccruedCarries(r: Record, rows: seq<RawFunding>, now: int)
    ensures var a := Accrued(r, rows, now);
            && a.candlesPath == r.candlesPath && a.slippageSamples == r.slippageSamples
            && a.partialExitDone == r.partialExitDone && a.position == r.position && a.initialSize == r.initialSize
  {
    hide FundingPaid, Notional;
  }

  /** Over every finished run over bars with rising times and candles, each trade reports the worst and the best of
      exactly the bars of its life and the average slippage of its fills. */
  lemma FinalReports(config: RunConfig, rows: seq<RawFunding>, bars: seq<Snapshot>,
                     candidates: seq<Option<SignalCandidate>>, end: Books)
    requires |bars| == |candidates| && Final(config, rows, bars, candidates) == Ok(end)
    requires LedgerGates.StrictlyInOrder(bars) && RisingCandles(bars)
    ensures AllReport(config, bars, end.closed)
  {
    hide Run, AllBalanced, TradesTell, Carries, Reports, LedgerGates.StrictlyInOrder, RisingCandles;
    hide ForceClosedAll, ForceClosed, Booked;
    RunReports(config, rows, bars, candidates, |bars|);
    RunTells(config, rows, bars, candidates, |bars|);
    var b := Run(config, rows, bars, candidates, |bars|).value;
    if |bars| > 0 && |b.open| > 0 {
      var last := bars[|bars| - 1];
      var closed := ForceClosedAll(config, rows, b.open, last.timestamp, last.price, |b.open|).value;
      ForceSources(config, rows, b.open, last.timestamp, last.price, |b.open|);
      BookedCloses(b, closed);
      forall k | 0 <= k < |closed| ensures Reports(config, bars, closed[k].trade) {
        OneBalanced(config, b.open, k);
        ForcedReports(config, rows, bars, b.open[k]);
      }
    }
  }

  // ---------------------------------------------------------------- numbers

  /** Candidates, positions and trades are numbered from one, in order: after n bars as many signals as candidates so
      far, and as many positions and trades as openings. */
  lemma {:induction false} RunNumbers(config: RunConfig, rows: seq<RawFunding>, bars: seq<Snapshot>,
                                      candidates: seq<Option<SignalCandidate>>, n: nat)
    requires n <= |bars| == |candidates| && Run(config, rows, bars, candidates, n).Ok?
    ensures var b := Run(config, rows, bars, candidates, n).value;
            && b.signalCounter == |Keep(candidates[..n], (c: Option<SignalCandidate>) => c.Some?)|
            && b.positionCounter == b.tradeCounter == |b.opens|
  {
    hide Step;
    if n > 0 {
      RunStep(config, rows, bars, candidates, n);
      RunNumbers(config, rows, bars, candidates, n - 1);
      assert candidates[..n][..n - 1] == candidates[..n - 1];
      StepNumbers(config, rows, Run(config, rows, bars, candidates, n - 1).value, bars[n - 1], candidates[n - 1]);
    }
  }

  lemma StepNumbers(config: RunConfig, rows: seq<RawFunding>, b: Books, s: Snapshot, candidate: Option<SignalCandidate>)
    requires Step(config, rows, b, s, candidate).Ok?
    ensures var b' := Step(config, rows, b, s, candidate).value.books;
            && b'.signalCounter == b.signalCounter + (if candidate.Some? then 1 else 0)
            && b'.positionCounter - b.positionCounter == |b'.opens| - |b.opens| == b'.tradeCounter - b.tradeCounter
  {
    hide Sweep, Events, Pnls, SumBy, Runtime, Governance.Evaluated, Governance.ToExecutable, RiskEngine.Evaluate,
        NewRecord;
  }

  /** A run starts with the configured equity, kept above the guard, and with nothing else. */
  lemma StartsEmpty(config: RunConfig)
    ensures config.StartingEquity() == if config.initialEquity < 0.00000001 then 0.00000001 else config.initialEquity
    ensures Start(config).equity == config.StartingEquity() && Start(config).curve == []
    ensures Start(config).open == [] && Start(config).closed == [] && Start(config).events == []
    ensures Start(config).opens == [] && Start(config).levels == []
  {
  }

  /** A new position carries the next number of each. */
  lemma NewNumbers(config: RunConfig, b: Books, now: int, candidate: Option<SignalCandidate>)
    requires Decide(config, b, now, candidate).Ok? && Decide(config, b, now, candidate).value.decision.Executed?
    ensures var b' := Decide(config, b, now, candidate).value.books;
            |b'.open| == |b.open| + 1
    ensures var r := Decide(config, b, now, candidate).value.books.open[|b.open|];
            && r.position.signalId == r.candidate.signalId == b.signalCounter + 1
            && r.position.positionId == b.positionCounter + 1 && r.tradeId == b.tradeCounter + 1
  {
    hide Runtime, Governance.Evaluated, RiskEngine.Evaluate, Simulate, Governance.ComputeRr;
  }
}
