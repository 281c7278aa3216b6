/**
 What the three runners achieve: their own candidates keep what the theorems about runs ask for, so that with
 positive bars a run ends without an error and every promise holds of it.
 */
module RunGuarantees {
  import opened Prelude
  import opened RealArith
  import opened Models
  import opened Funding
  import opened RuntimeLimits
  import opened Ledger
  import opened LedgerRuns
  import opened LedgerFills
  import opened LedgerTrades
  import opened LedgerGates
  import opened LedgerPartials
  import opened Funnel
  import LedgerApprovals
  import LedgerLives
  import LedgerReports
  import LossBound
  import Performance
  import SignalEngine

  /** The candidates of a plain, an instrumented or a research run. */
  ghost predicate FromSomeRunner(candidates: seq<Option<SignalCandidate>>, signals: SignalEngine.SignalConfig,
                                 overlay: UptrendContinuationConfig, bars: seq<Snapshot>) {
    || candidates == PlainCandidates(signals, bars)
    || candidates == ProxyCandidates(signals, bars)
    || candidates == ResearchCandidates(signals, overlay, bars)
  }

  lemma RunnersAreWellPlaced(candidates: seq<Option<SignalCandidate>>, signals: SignalEngine.SignalConfig,
                             overlay: UptrendContinuationConfig, bars: seq<Snapshot>)
    requires FromSomeRunner(candidates, signals, overlay, bars)
    ensures |candidates| == |bars| && WellPlacedCandidates(bars, candidates)
  {
    hide PlainCandidate, ProxyCandidate, ResearchCandidate, SignalEngine.WellPlaced;
    forall i | 0 <= i < |bars| && candidates[i].Some?
      ensures SignalEngine.WellPlaced(candidates[i].value, bars[i].timestamp) {
      SourcesAreWellPlaced(signals, overlay, bars[i]);
    }
  }

  /** Whatever the signal configuration and the stream of well-formed bars, every trade that exits by rule in a
      plain, an instrumented or a research run loses at most what its sizing and the slippage allow. */
  lemma RunnersBoundLosses(config: RunConfig, rows: seq<RawFunding>, bars: seq<Snapshot>,
                           candidates: seq<Option<SignalCandidate>>, signals: SignalEngine.SignalConfig,
                           overlay: UptrendContinuationConfig)
    requires FromSomeRunner(candidates, signals, overlay, bars)
    requires |candidates| == |bars| && Final(config, rows, bars, candidates).Ok?
    requires WellFormedCandles(bars) && LossBound.SaneFills(config)
    ensures var b := Final(config, rows, bars, candidates).value;
            AllLossesBounded(config, b.curve, b.closed, Splits(config, rows, bars, candidates, |bars|))
  {
    hide Final, WellPlacedCandidates, WellFormedCandles, LossBound.SaneFills, AllLossesBounded, FromSomeRunner;
    RunnersAreWellPlaced(candidates, signals, overlay, bars);
    FinalBoundsLosses(config, rows, bars, candidates);
  }

  /** And every opening of such a run, over bars whose times rise, happened within the drawdown, streak and cooldown
      limits, and within the daily number of trades. */
  lemma RunnersKeepSafety(config: RunConfig, rows: seq<RawFunding>, bars: seq<Snapshot>,
                          candidates: seq<Option<SignalCandidate>>, signals: SignalEngine.SignalConfig,
                          overlay: UptrendContinuationConfig)
    requires FromSomeRunner(candidates, signals, overlay, bars)
    requires |candidates| == |bars| && Final(config, rows, bars, candidates).Ok? && StrictlyInOrder(bars)
    ensures AllSafelyOpened(config, Final(config, rows, bars, candidates).value)
    ensures forall date ::
              OnDate(Final(config, rows, bars, candidates).value.opens, date)
              <= MaxInt(config.governance.maxTradesPerDay, 0)
  {
    hide Final, WellPlacedCandidates, AllSafelyOpened, FromSomeRunner, OnDate;
    RunnersAreWellPlaced(candidates, signals, overlay, bars);
    FinalKeepsSafety(config, rows, bars, candidates);
  }

  // ---------------------------------------------------------------- runs that cannot fail

  /** Targets lie on the winning side, and the entries the signal engine would compute are positive. */
  ghost predicate PositiveEntries(signals: SignalEngine.SignalConfig, bars: seq<Snapshot>) {
    && signals.tp1AtrMult >= 0.0
    && forall i, d | 0 <= i < |bars| :: SignalEngine.BuildLevels(signals, Compute(bars[i]), d).entry > 0.0
  }

  lemma LevelsArePositive(signals: SignalEngine.SignalConfig, f: Features, d: Direction)
    requires signals.tp1AtrMult >= 0.0 && SignalEngine.BuildLevels(signals, f, d).entry > 0.0
    ensures var levels := SignalEngine.BuildLevels(signals, f, d);
            if d.Long? then levels.tp1 > 0.0 else levels.invalidation > 0.0
  {
    SignalEngine.StopOnLosingSide(signals, f, d);
    ProductNonNegative(Max(f.atr15m, TINY), signals.tp1AtrMult);
    hide SignalEngine.StopDistance;
  }

  lemma SourcesArePositive(signals: SignalEngine.SignalConfig, overlay: UptrendContinuationConfig, s: Snapshot)
    requires signals.tp1AtrMult >= 0.0
    requires forall d :: SignalEngine.BuildLevels(signals, Compute(s), d).entry > 0.0
    ensures PlainCandidate(signals, s).Some? ==> PositiveCandidate(PlainCandidate(signals, s).value)
    ensures ProxyCandidate(signals, s).Some? ==> PositiveCandidate(ProxyCandidate(signals, s).value)
    ensures ResearchCandidate(signals, overlay, s).Some? ==>
              PositiveCandidate(ResearchCandidate(signals, overlay, s).value)
  {
    hide SignalEngine.Diagnosed, SignalEngine.Confluence, SignalEngine.Reasons, SignalEngine.BuildLevels;
    hide IsRegimeBlocked;
    LevelsArePositive(signals, Compute(s), Long);
    LevelsArePositive(signals, Compute(s), Short);
  }

  lemma RunnersArePositive(candidates: seq<Option<SignalCandidate>>, signals: SignalEngine.SignalConfig,
                           overlay: UptrendContinuationConfig, bars: seq<Snapshot>)
    requires FromSomeRunner(candidates, signals, overlay, bars) && PositiveEntries(signals, bars)
    ensures PositiveCandidates(candidates)
  {
    hide PlainCandidate, ProxyCandidate, ResearchCandidate, PositiveCandidate, SignalEngine.BuildLevels;
    forall i | 0 <= i < |candidates| && candidates[i].Some? ensures PositiveCandidate(candidates[i].value) {
      SourcesArePositive(signals, overlay, bars[i]);
    }
  }

  /** A plain, an instrumented or a research run over positive bars never ends with an error. */
  lemma RunnersSucceed(config: RunConfig, rows: seq<RawFunding>, bars: seq<Snapshot>,
                       candidates: seq<Option<SignalCandidate>>, signals: SignalEngine.SignalConfig,
                       overlay: UptrendContinuationConfig)
    requires FromSomeRunner(candidates, signals, overlay, bars) && CanOpen(config)
    requires PositiveBars(bars) && PositiveEntries(signals, bars)
    ensures |candidates| == |bars| && Final(config, rows, bars, candidates).Ok?
  {
    RunnersAreWellPlaced(candidates, signals, overlay, bars);
    RunnersArePositive(candidates, signals, overlay, bars);
    hide Final, PositiveCandidates, PositiveBars, PositiveEntries, CanOpen, FromSomeRunner;
    FinalSucceeds(config, rows, bars, candidates);
  }

  /** Every trade of the run was opened under its own number, was closed by the bar that called for it, was charged for
      its own holding interval, lost at most what its sizing allows, was entered apart from those near it in time and
      reports the extremes of the bars of its life; every opening kept the limits; and the equity is the starting
      equity plus the results. */
  ghost predicate KeepsPromises(config: RunConfig, rows: seq<RawFunding>, bars: seq<Snapshot>,
                                candidates: seq<Option<SignalCandidate>>, end: Books)
    requires |bars| == |candidates|
  {
    var splits := Splits(config, rows, bars, candidates, |bars|);
    && end.open == [] && ClosedIds(end.closed) == Numbers(|end.opens|)
    && (forall k | 0 <= k < |end.closed| ::
          OpenedThen(end.opens, end.closed[k].trade.tradeId, end.closed[k].trade.openedAt))
    && end.equity == config.StartingEquity() + SumBy(Pnls(end.closed), Performance.Identity())
    && TradesTell(config, end.closed)
    && LedgerLives.AllClosedRightly(config, bars, end.closed)
    && (LedgerReports.RisingCandles(bars) ==> LedgerReports.AllReport(config, bars, end.closed))
    && AllCharged(config, rows, end.closed, splits)
    && AllLossesBounded(config, end.curve, end.closed, splits)
    && AllSafelyOpened(config, end)
    && (config.governance.duplicateLevelWindowHours >= 0 ==>
          forall i, j | 0 <= i < |end.closed| && 0 <= j < |end.closed| ::
            LedgerApprovals.Apart(config, LedgerApprovals.AskedInRun(config, rows, bars, candidates, |bars|),
                                  end.closed[i], end.closed[j]))
  }

  /** All of it for the three runners, from what can be read off the settings and the bars alone. */
  lemma RunnersKeepPromises(config: RunConfig, rows: seq<RawFunding>, bars: seq<Snapshot>,
                            candidates: seq<Option<SignalCandidate>>, signals: SignalEngine.SignalConfig,
                            overlay: UptrendContinuationConfig)
    requires FromSomeRunner(candidates, signals, overlay, bars) && CanOpen(config) && LossBound.SaneFills(config)
    requires PositiveBars(bars) && PositiveEntries(signals, bars)
    requires WellFormedCandles(bars) && StrictlyInOrder(bars)
    ensures |candidates| == |bars| && Final(config, rows, bars, candidates).Ok?
    ensures KeepsPromises(config, rows, bars, candidates, Final(config, rows, bars, candidates).value)
  {
    RunnersSucceed(config, rows, bars, candidates, signals, overlay);
    RunnersAreWellPlaced(candidates, signals, overlay, bars);
    hide Final, PositiveBars, PositiveEntries, CanOpen, FromSomeRunner, WellFormedCandles, StrictlyInOrder,
        WellPlacedCandidates, LossBound.SaneFills, KeepsPromises;
    RunKeepsPromises(config, rows, bars, candidates, Final(config, rows, bars, candidates).value);
  }

  lemma RunKeepsPromises(config: RunConfig, rows: seq<RawFunding>, bars: seq<Snapshot>,
                         candidates: seq<Option<SignalCandidate>>, end: Books)
    requires |candidates| == |bars| && Final(config, rows, bars, candidates) == Ok(end)
    requires WellPlacedCandidates(bars, candidates) && LossBound.SaneFills(config)
    requires WellFormedCandles(bars) && StrictlyInOrder(bars) && PositiveBars(bars)
    ensures KeepsPromises(config, rows, bars, candidates, end)
  {
    hide Final, WellFormedCandles, StrictlyInOrder, InOrder, WellPlacedCandidates, LossBound.SaneFills, AllSafelyOpened,
        AllCharged, AllLossesBounded, TradesTell, LedgerApprovals.Apart, Splits, SumBy, Pnls, ClosedIds, OpenedThen,
        PositiveBars, LedgerLives.AllClosedRightly, LedgerReports.RisingCandles, LedgerReports.AllReport;
    StrictIsOrdered(bars);
    FinalConserves(config, rows, bars, candidates);
    FinalCharges(config, rows, bars, candidates);
    FinalBoundsLosses(config, rows, bars, candidates);
    FinalKeepsSafety(config, rows, bars, candidates);
    LedgerLives.FinalOnCue(config, rows, bars, candidates, end);
    if LedgerReports.RisingCandles(bars) {
      LedgerReports.FinalReports(config, rows, bars, candidates, end);
    }
    if config.governance.duplicateLevelWindowHours >= 0 {
      forall i, j | 0 <= i < |end.closed| && 0 <= j < |end.closed|
        ensures LedgerApprovals.Apart(config, LedgerApprovals.AskedInRun(config, rows, bars, candidates, |bars|),
                                      end.closed[i], end.closed[j])
      {
        LedgerApprovals.TradesAreSpaced(config, rows, bars, candidates, end, i, j);
      }
    }
  }

  lemma StrictIsOrdered(bars: seq<Snapshot>)
    requires StrictlyInOrder(bars)
    ensures InOrder(bars)
  {
  }
}
