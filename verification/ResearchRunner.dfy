/**
 The research runner (research_lab/research_backtest_runner.py): a second main loop around the same
 position handling, with the uptrend-continuation overlay and its own signal counters.
 */
module ResearchRunner {
  import opened Prelude
  import opened Models
  import opened Funding
  import opened Ledger
  import opened Funnel
  import BacktestRunner

  class ResearchBacktestRunner {
    const base: BacktestRunner.Runner
    const overlay: UptrendContinuationConfig
    var counters: Counters

    constructor (base: BacktestRunner.Runner, overlay: UptrendContinuationConfig)
      ensures this.base == base && this.overlay == overlay && counters == Counters(0, 0, 0, 0)
    {
      this.base := base;
      this.overlay := overlay;
      counters := Counters(0, 0, 0, 0);
    }

    /** Counts what one bar produced before its candidate is decided on, and returns that candidate. */
    method ResolveSignalCandidates(s: Snapshot) returns (candidate: Option<SignalCandidate>)
      modifies this`counters
      ensures candidate == ResearchCandidate(base.signals, overlay, s)
      ensures counters == CountedBar(
                old(counters),
                Bit(PlainCandidate(base.signals, s).Some?) + Bit(OverlayCandidate(base.signals, overlay, s).Some?),
                candidate.None? && IsRegimeBlocked(base.signals, Compute(s), s.regime), NoSignal)
    {
      hide PlainCandidate, OverlayCandidate, IsRegimeBlocked;
      var baseCandidate := PlainCandidate(base.signals, s);
      var uptrendCandidate := OverlayCandidate(base.signals, overlay, s);
      candidate := Selected(baseCandidate, uptrendCandidate);
      counters := counters.(generated := counters.generated + Bit(baseCandidate.Some?) + Bit(uptrendCandidate.Some?));
      if candidate.None? && IsRegimeBlocked(base.signals, Compute(s), s.regime) {
        counters := counters.(generated := counters.generated + 1, regimeBlocked := counters.regimeBlocked + 1);
      }
    }

    method RunBar(s: Snapshot) returns (decision: Result<Decision>)
      requires base.Valid() && !base.instrumented
      modifies this, base, base.openPositions, base.governance
      ensures base.governance == old(base.governance)
      ensures decision.Ok? ==>
                forall i | 0 <= i < |base.openPositions| ::
                    base.openPositions[i] in old(base.openPositions) || fresh(base.openPositions[i])
      ensures match Step(base.config, base.rows, old(base.Contents()), s, ResearchCandidate(base.signals, overlay, s))
              case Err(e) => decision == Err(e)
              case Ok(d) => base.Valid() && decision == Ok(d.decision) && base.Contents() == d.books
      ensures decision.Ok? ==>
                counters == CountedBar(
                  old(counters),
                  Bit(PlainCandidate(base.signals, s).Some?) + Bit(OverlayCandidate(base.signals, overlay, s).Some?),
                  ResearchCandidate(base.signals, overlay, s).None?
                  && IsRegimeBlocked(base.signals, Compute(s), s.regime),
                  decision.value)
    {
      hide AfterClosing, Decide, Step, PlainCandidate, OverlayCandidate, ResearchCandidate, IsRegimeBlocked;
      hide BacktestRunner.Runner.Contents, BacktestRunner.Runner.Valid;
      BacktestRunner.StepSplits(base.config, base.rows, base.Contents(), s,
                                ResearchCandidate(base.signals, overlay, s));
      var closed := base.CloseBar(s);
      if closed.Err? {
        return Err(closed.error);
      }
      var candidate := ResolveSignalCandidates(s);
      decision := base.DecideBar(s, candidate);
      if decision.Ok? {
        counters := counters.(
          governanceRejected := counters.governanceRejected + Bit(decision.value.GovernanceRejected?),
          riskRejected := counters.riskRejected + Bit(decision.value.RiskRejected?));
      }
    }

    /** Replays the bars with the overlay's candidates. With the overlay off the result is the one the
        plain runner gives. */
    method Run(bars: seq<Snapshot>) returns (result: Result<BacktestRunner.BacktestResult>)
      requires !base.instrumented
      modifies this, base
      ensures match Final(base.config, base.rows, bars, ResearchCandidates(base.signals, overlay, bars))
              case Err(e) => result == Err(e)
              case Ok(b) =>
                && result.Ok? && result.value.trades == BacktestRunner.Trades(b.closed)
                && result.value.equityCurve == b.curve
                && result.value.performance.tradesCount == |b.opens|
                && result.value.performance.pnlAbs == b.equity - base.config.StartingEquity()
      ensures !overlay.allowUptrendContinuation ==>
                match Final(base.config, base.rows, bars, PlainCandidates(base.signals, bars))
                case Err(e) => result == Err(e)
                case Ok(b) =>
                  && result.Ok? && result.value.trades == BacktestRunner.Trades(b.closed)
                  && result.value.equityCurve == b.curve
      ensures result.Ok? ==> counters == ResearchCounters(base.config, base.signals, overlay, base.rows, bars, |bars|)
    {
      hide Step, PlainCandidate, OverlayCandidate, ResearchCandidate, IsRegimeBlocked, CountersOf, Finished, Final,
          Ledger.Run;
      hide BacktestRunner.Runner.Contents, BacktestRunner.Runner.Valid;
      base.Reset();
      counters := Counters(0, 0, 0, 0);
      SameBooks(base.config, base.signals, overlay, base.rows, bars);
      var replayed := Replay(bars);
      if replayed.Err? {
        RunErrIsFinal(base.config, base.rows, bars, ResearchCandidates(base.signals, overlay, bars));
        return Err(replayed.error);
      }
      result := base.FinishRun(bars, ResearchCandidates(base.signals, overlay, bars));
    }

    method Replay(bars: seq<Snapshot>) returns (replayed: Result<()>)
      requires !base.instrumented && base.Valid() && base.Contents() == Start(base.config) && base.openPositions == []
      requires counters == Counters(0, 0, 0, 0)
      modifies this, base, base.governance
      ensures base.governance == old(base.governance)
      ensures match Ledger.Run(base.config, base.rows, bars, ResearchCandidates(base.signals, overlay, bars), |bars|)
              case Err(e) => replayed == Err(e)
              case Ok(b) => replayed.Ok? && base.Valid() && base.Contents() == b
      ensures replayed.Ok? ==> forall i | 0 <= i < |base.openPositions| :: fresh(base.openPositions[i])
      ensures replayed.Ok? ==> counters == ResearchCounters(base.config, base.signals, overlay, base.rows, bars, |bars|)
    {
      hide Step, PlainCandidate, OverlayCandidate, ResearchCandidate, IsRegimeBlocked, CountersOf;
      hide BacktestRunner.Runner.Contents, BacktestRunner.Runner.Valid;
      ghost var candidates := ResearchCandidates(base.signals, overlay, bars);
      ghost var produced, blocked := ResearchProduced(base.signals, overlay, bars),
          ResearchBlocked(base.signals, overlay, bars);
      BacktestRunner.CountersStart(base.config, base.rows, bars, candidates, produced, blocked);
      for k := 0 to |bars|
        invariant base.Valid() && base.governance == old(base.governance)
        invariant forall i | 0 <= i < |base.openPositions| :: fresh(base.openPositions[i])
        invariant Ledger.Run(base.config, base.rows, bars, candidates, k) == Ok(base.Contents())
        invariant counters == CountersOf(base.config, base.rows, bars, candidates, produced, blocked, k)
      {
        BacktestRunner.RunSnoc(base.config, base.rows, bars, candidates, k, base.Contents());
        BacktestRunner.CountersSnoc(base.config, base.rows, bars, candidates, produced, blocked, k, base.Contents());
        var decision := RunBar(bars[k]);
        if decision.Err? {
          BacktestRunner.RunFailsOn(base.config, base.rows, bars, candidates, k + 1, |bars|);
          return Err(decision.error);
        }
      }
      return Ok(());
    }
  }

  lemma RunErrIsFinal(config: RunConfig, rows: seq<RawFunding>, bars: seq<Snapshot>,
                      candidates: seq<Option<SignalCandidate>>)
    requires |bars| == |candidates| && Ledger.Run(config, rows, bars, candidates, |bars|).Err?
    ensures Final(config, rows, bars, candidates) == Err(Ledger.Run(config, rows, bars, candidates, |bars|).error)
  {
    hide Ledger.Run;
  }
}
