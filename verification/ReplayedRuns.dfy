/**
 Runs over recorded data: the replay of recorded bars (backtest/replay_loader.py) meets what the theorems about
 runs ask of a stream of bars (backtest/backtest_runner.py).
 */
module ReplayedRuns {
  import opened Prelude
  import opened Sorting
  import opened ReplayLoader
  import Funding
  import Funnel
  import Ledger
  import LedgerFills
  import LedgerGates
  import LedgerReports
  import LedgerTrades
  import LossBound
  import Models
  import RunGuarantees
  import SignalEngine

  /** What the feature, regime and context engines make of a snapshot. */
  datatype EngineOutput = EngineOutput(features: Models.Features, regime: Models.Regime, contextEligible: Option<bool>)

  function CandleOf(row: Row<Bar>): Models.Candle {
    Models.Candle(row.at, row.value.high, row.value.low, row.value.close)
  }

  /** The bar the main loop sees: time, price and the last of the fifteen-minute bars looked back at. */
  function BarOf(s: MarketSnapshot, output: EngineOutput): Models.Snapshot {
    var last := Latest(s.candles15m);
    Models.Snapshot(s.timestamp, s.price, if last.Some? then Some(CandleOf(last.value)) else None,
                    output.features, output.regime, output.contextEligible)
  }

  /** The stream of a replay; the engines keep state, so their output is a function of the position in the stream. */
  function BarsOf(snapshots: seq<MarketSnapshot>, engines: nat -> EngineOutput): seq<Models.Snapshot> {
    seq(|snapshots|, i requires 0 <= i < |snapshots| => BarOf(snapshots[i], engines(i)))
  }

  /** Recorded bars as an exchange sends them: positive, low <= close <= high. */
  predicate SoundBar(bar: Bar) {
    0.0 < bar.low <= bar.close <= bar.high
  }

  /** Fifteen-minute bars sound and under rising open times. */
  ghost predicate SoundRecording(candles: seq<Row<Bar>>) {
    && (forall i | 0 <= i < |candles| :: SoundBar(candles[i].value))
    && (forall i, j | 0 <= i < j < |candles| :: candles[i].at < candles[j].at)
  }

  lemma KeptIsSound(candles: seq<Row<Bar>>, p: Row<Bar> -> bool)
    requires SoundRecording(candles)
    ensures SoundRecording(Keep(candles, p))
  {
    hide Keep;
    var kept := Keep(candles, p);
    forall i | 0 <= i < |kept| ensures SoundBar(kept[i].value) {
      KeepMember(candles, p, kept[i]);
    }
    KeepKeepsOrder(candles, p, Sooner);
    assert forall i, j | 0 <= i < j < |kept| :: Sooner(kept[i], kept[j]);
  }

  /** Under rising open times a bar is the last of those begun by then. */
  lemma LastIsItself(candles: seq<Row<Bar>>, candle: Row<Bar>)
    requires SoundRecording(candles) && candle in candles
    ensures var begun := UpTo(candles, candle.at);
            |begun| > 0 && begun[|begun| - 1] == candle
  {
    var p := (r: Row<Bar>) => r.at <= candle.at;
    hide Keep;
    KeepMember(candles, p, candle);
    KeepKeepsOrder(candles, p, Sooner);
    var begun := Keep(candles, p);
    var i :| 0 <= i < |begun| && begun[i] == candle;
    KeepMember(candles, p, begun[|begun| - 1]);
    if i < |begun| - 1 {
      assert Sooner(begun[i], begun[|begun| - 1]);
    }
  }

  lemma SnapshotIsSound(db: Database, config: ReplayLoaderConfig, candle: Row<Bar>, output: EngineOutput)
    requires SoundRecording(db.candles15m) && candle in db.candles15m
    ensures var bar := BarOf(SnapshotOf(db, config, candle), output);
            && LedgerFills.PositiveBar(bar) && LossBound.WellFormedCandle(Ledger.LatestCandle(bar))
            && bar.timestamp == candle.at + BAR && Ledger.LatestCandle(bar).openTime == candle.at
  {
    LastIsItself(db.candles15m, candle);
    hide Keep, UpTo;
    var shown := LastRows(UpTo(db.candles15m, candle.at), config.candles15mLookback);
    if |shown| > 0 {
      var last := shown[|shown| - 1];
      assert last in UpTo(db.candles15m, candle.at);
      UpToMember(db.candles15m, candle.at, last);
    }
    hide LastRows, ExactOrLatest, Within;
  }

  lemma UpToMember(rows: seq<Row<Bar>>, t: int, r: Row<Bar>)
    requires r in UpTo(rows, t)
    ensures r in rows
  {
    KeepMember(rows, (x: Row<Bar>) => x.at <= t, r);
  }

  /** The stream of a replay over a sound recording has rising times, positive prices and well-formed candles. */
  lemma ReplayIsSound(db: Database, config: ReplayLoaderConfig, start: int, end: int, engines: nat -> EngineOutput)
    requires SoundRecording(db.candles15m)
    ensures var bars := BarsOf(Replayed(db, config, start, end), engines);
            && LedgerGates.StrictlyInOrder(bars)
            && LedgerFills.PositiveBars(bars) && LedgerTrades.WellFormedCandles(bars)
            && LedgerReports.RisingCandles(bars)
  {
    hide Keep, SnapshotOf, LedgerFills.PositiveBar, LossBound.WellFormedCandle, Ledger.LatestCandle, SoundBar, BarOf;
    var candles := Keep(db.candles15m, InRange(start, end));
    KeptIsSound(db.candles15m, InRange(start, end));
    var bars := BarsOf(Replayed(db, config, start, end), engines);
    assert |bars| == |candles|;
    forall i | 0 <= i < |bars|
      ensures LedgerFills.PositiveBar(bars[i]) && LossBound.WellFormedCandle(Ledger.LatestCandle(bars[i]))
      ensures bars[i].timestamp == candles[i].at + BAR && Ledger.LatestCandle(bars[i]).openTime == candles[i].at
    {
      assert bars[i] == BarOf(SnapshotOf(db, config, candles[i]), engines(i));
      KeepMember(db.candles15m, InRange(start, end), candles[i]);
      SnapshotIsSound(db, config, candles[i], engines(i));
    }
  }

  /** A run of any of the three runners over what the replay loads from a sound recording: it ends without an error
      and keeps every promise, from what can be read off the settings, the recording and the engines' output. */
  lemma ReplayedRunsKeepPromises(recorded: Database, loader: ReplayLoaderConfig, start: int, end: int,
                                 engines: nat -> EngineOutput, config: Ledger.RunConfig,
                                 rows: seq<Funding.RawFunding>, candidates: seq<Option<Models.SignalCandidate>>,
                                 signals: SignalEngine.SignalConfig, overlay: Funnel.UptrendContinuationConfig)
    requires SoundRecording(recorded.candles15m)
    requires LedgerFills.CanOpen(config) && LossBound.SaneFills(config)
    requires var bars := BarsOf(Replayed(Selected(recorded, loader, start, end), loader, start, end), engines);
             RunGuarantees.FromSomeRunner(candidates, signals, overlay, bars)
             && RunGuarantees.PositiveEntries(signals, bars)
    ensures var bars := BarsOf(Replayed(Selected(recorded, loader, start, end), loader, start, end), engines);
            && |candidates| == |bars| && Ledger.Final(config, rows, bars, candidates).Ok?
            && RunGuarantees.KeepsPromises(config, rows, bars, candidates,
                                           Ledger.Final(config, rows, bars, candidates).value)
            && LedgerReports.RisingCandles(bars)
  {
    hide Keep, Replayed, BarsOf, RunGuarantees.FromSomeRunner, RunGuarantees.PositiveEntries, LedgerFills.CanOpen;
    hide LossBound.SaneFills, RunGuarantees.KeepsPromises, Ledger.Final, LedgerGates.StrictlyInOrder;
    hide LedgerFills.PositiveBars, LedgerTrades.WellFormedCandles, LedgerReports.RisingCandles;
    var db := Selected(recorded, loader, start, end);
    KeptIsSound(recorded.candles15m, (r: Row<Bar>) => LookbackStart(loader, start) <= r.at <= end);
    hide Selected, SoundRecording;
    var bars := BarsOf(Replayed(db, loader, start, end), engines);
    ReplayIsSound(db, loader, start, end, engines);
    RunGuarantees.RunnersKeepPromises(config, rows, bars, candidates, signals, overlay);
  }
}
