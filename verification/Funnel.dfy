/**
 Instrumented and research runs (research_lab/funnel.py, research_lab/research_backtest_runner.py):
 the counting proxy and the research overlay as sources of candidates, what they change and what
 they leave alone, and the balance of the signal counters.
 */
module Funnel {
  import opened Prelude
  import opened RealArith
  import opened Models
  import opened Funding
  import opened Ledger
  import opened LedgerShape
  import opened LedgerRuns
  import opened SignalEngine

  datatype UptrendContinuationConfig = UptrendContinuationConfig(
    allowUptrendContinuation: bool,
    reclaimStrengthMin: real,
    participationMin: real,
    confluenceMultiplier: real)

  /** The feature engine stamps its result with the time of the bar. */
  function Compute(s: Snapshot): Features {
    s.features.(timestamp := s.timestamp)
  }

  function PlainCandidate(config: SignalConfig, s: Snapshot): Option<SignalCandidate> {
    Generate(config, Compute(s), s.regime, s.contextEligible)
  }

  /** The check the counting proxy makes on its own before it asks the signal engine. */
  predicate IsRegimeBlocked(config: SignalConfig, f: Features, regime: Regime) {
    if !f.sweepDetected then false
    else if !f.reclaimDetected then false
    else if f.sweepLevel.None? then false
    else if f.sweepDepthPct.Some? && f.sweepDepthPct.value < config.minSweepDepthPct then false
    else
      var direction := InferDirection(config, f);
      direction.Some? && !IsDirectionAllowed(config, direction.value, regime)
  }

  function ProxyCandidate(config: SignalConfig, s: Snapshot): Option<SignalCandidate> {
    if IsRegimeBlocked(config, Compute(s), s.regime) then None else PlainCandidate(config, s)
  }

  /** The proxy short-circuits exactly the reclaimed sweeps that the signal engine itself would turn
      away for their direction. */
  lemma RegimeBlockedMeaning(config: SignalConfig, f: Features, regime: Regime)
    ensures IsRegimeBlocked(config, f, regime)
       <==> f.reclaimDetected && Diagnosed(config, f, regime).blockedBy == Some(RegimeDirectionWhitelist)
  {
    hide Confluence, Reasons;
  }

  /** The counting proxy changes no candidate. */
  lemma ProxyIsTransparent(config: SignalConfig, s: Snapshot)
    ensures ProxyCandidate(config, s) == PlainCandidate(config, s)
  {
    RegimeBlockedMeaning(config, Compute(s), s.regime);
    hide Diagnosed, BuildLevels, IsRegimeBlocked;
  }

  // ---------------------------------------------------------------- research overlay

  function LatestClose(s: Snapshot): real {
    if s.lastCandle.Some? then s.lastCandle.value.close else s.price
  }

  /** How far the bar closed above the swept level, in average ranges. */
  function ReclaimStrength(s: Snapshot, level: real): real {
    (LatestClose(s) - level) / Max(s.features.atr15m, TINY)
  }

  function OverlayCandidate(config: SignalConfig, overlay: UptrendContinuationConfig,
                            s: Snapshot): Option<SignalCandidate> {
    var f := Compute(s);
    if !overlay.allowUptrendContinuation then None
    else if !s.regime.Uptrend? then None
    else if !f.sweepDetected || !f.reclaimDetected then None
    else if f.sweepLevel.None? || f.sweepSide != Some(High) then None
    else if f.sweepDepthPct.Some? && f.sweepDepthPct.value < config.minSweepDepthPct then None
    else if f.tfi60s < overlay.participationMin then None
    else if ReclaimStrength(s, f.sweepLevel.value) < overlay.reclaimStrengthMin then None
    else
      var score := Confluence(config, f, s.regime, Long);
      if score < config.confluenceMin * overlay.confluenceMultiplier then None
      else
        var levels := BuildLevels(config, f, Long);
        Some(SignalCandidate(
          0, f.timestamp, Long, levels.entry, levels.invalidation, levels.tp1, levels.tp2, score, s.regime,
          Reasons(config, f, s.regime, Long) + [UptrendContinuationAcceptance, UptrendContinuationParticipation],
          f.atr15m))
  }

  /** The stronger candidate wins; the base candidate wins ties. */
  function Selected(base: Option<SignalCandidate>, overlay: Option<SignalCandidate>): Option<SignalCandidate> {
    if base.None? then overlay
    else if overlay.None? then base
    else if overlay.value.confluenceScore > base.value.confluenceScore then overlay
    else base
  }

  function ResearchCandidate(config: SignalConfig, overlay: UptrendContinuationConfig,
                             s: Snapshot): Option<SignalCandidate> {
    Selected(PlainCandidate(config, s), OverlayCandidate(config, overlay, s))
  }

  /** The signal engine reads a short off the flow: bearish divergence alone or, without a divergence on
      one side only, order flow below the short threshold and not above the long one. */
  predicate FlowIsShort(config: SignalConfig, f: Features) {
    || (f.cvdBearishDivergence && !f.cvdBullishDivergence)
    || (f.cvdBearishDivergence == f.cvdBullishDivergence
        && f.tfi60s <= config.directionTfiThreshold && f.tfi60s < config.directionTfiThresholdInverse)
  }

  /** A reclaimed, deep enough sweep of a high in an uptrend that the overlay buys and the engine shorts. */
  predicate IsDoubleBar(config: SignalConfig, overlay: UptrendContinuationConfig, s: Snapshot) {
    var f := s.features;
    && overlay.allowUptrendContinuation && IsDirectionAllowed(config, Short, Uptrend)
    && s.regime.Uptrend? && s.contextEligible != Some(false)
    && f.sweepDetected && f.reclaimDetected && f.sweepLevel.Some? && f.sweepSide == Some(High) && !TooShallow(config, f)
    && FlowIsShort(config, f) && f.tfi60s >= overlay.participationMin
    && ReclaimStrength(s, f.sweepLevel.value) >= overlay.reclaimStrengthMin
    && Confluence(config, f, Uptrend, Short) >= config.confluenceMin
    && Confluence(config, f, Uptrend, Long) >= config.confluenceMin * overlay.confluenceMultiplier
  }

  /** Both sources produce a candidate on a bar exactly when its fields and the configuration say so; in
      particular only if shorts are allowed in an uptrend. */
  lemma BothCandidatesIff(config: SignalConfig, overlay: UptrendContinuationConfig, s: Snapshot)
    ensures PlainCandidate(config, s).Some? && OverlayCandidate(config, overlay, s).Some?
            <==> IsDoubleBar(config, overlay, s)
  {
    TimeDoesNotMatter(config, s.features, s.timestamp, s.regime, Short);
    TimeDoesNotMatter(config, s.features, s.timestamp, s.regime, Long);
    hide Confluence, BuildLevels;
  }

  lemma TimeDoesNotMatter(config: SignalConfig, f: Features, now: int, regime: Regime, d: Direction)
    ensures Confluence(config, f.(timestamp := now), regime, d) == Confluence(config, f, regime, d)
  {
    SameReasons(config, f, now, regime, d);
    hide Reasons;
  }

  lemma SameReasons(config: SignalConfig, f: Features, now: int, regime: Regime, d: Direction)
    ensures Reasons(config, f.(timestamp := now), regime, d) == Reasons(config, f, regime, d)
  {
    hide Extend;
  }

  /** With the overlay off the research runner decides on the same candidates. */
  lemma OverlayOffIsTransparent(config: SignalConfig, overlay: UptrendContinuationConfig, s: Snapshot)
    requires !overlay.allowUptrendContinuation
    ensures ResearchCandidate(config, overlay, s) == PlainCandidate(config, s)
  {
  }

  /** Every candidate source keeps the promise the ledger theorems ask for. */
  lemma SourcesAreWellPlaced(config: SignalConfig, overlay: UptrendContinuationConfig, s: Snapshot)
    ensures PlainCandidate(config, s).Some? ==> WellPlaced(PlainCandidate(config, s).value, s.timestamp)
    ensures ProxyCandidate(config, s).Some? ==> WellPlaced(ProxyCandidate(config, s).value, s.timestamp)
    ensures ResearchCandidate(config, overlay, s).Some? ==>
            WellPlaced(ResearchCandidate(config, overlay, s).value, s.timestamp)
  {
    hide Diagnosed, Confluence, Reasons, BuildLevels, IsRegimeBlocked;
    if PlainCandidate(config, s).Some? {
      GeneratedIsWellPlaced(config, Compute(s), s.regime, s.contextEligible);
    }
    StopOnLosingSide(config, Compute(s), Long);
  }

  // ---------------------------------------------------------------- candidates of a whole run

  function PlainCandidates(config: SignalConfig, bars: seq<Snapshot>): seq<Option<SignalCandidate>> {
    seq(|bars|, i requires 0 <= i < |bars| => PlainCandidate(config, bars[i]))
  }

  function ProxyCandidates(config: SignalConfig, bars: seq<Snapshot>): seq<Option<SignalCandidate>> {
    seq(|bars|, i requires 0 <= i < |bars| => ProxyCandidate(config, bars[i]))
  }

  function ResearchCandidates(config: SignalConfig, overlay: UptrendContinuationConfig,
                              bars: seq<Snapshot>): seq<Option<SignalCandidate>> {
    seq(|bars|, i requires 0 <= i < |bars| => ResearchCandidate(config, overlay, bars[i]))
  }

  /** Instrumenting a run, or running it through the research runner with the overlay off, changes
      nothing in its books: same trades, same equity curve, same errors. */
  lemma SameBooks(config: RunConfig, signals: SignalConfig, overlay: UptrendContinuationConfig, rows: seq<RawFunding>,
                  bars: seq<Snapshot>)
    ensures Final(config, rows, bars, ProxyCandidates(signals, bars))
            == Final(config, rows, bars, PlainCandidates(signals, bars))
    ensures !overlay.allowUptrendContinuation ==>
              Final(config, rows, bars, ResearchCandidates(signals, overlay, bars))
              == Final(config, rows, bars, PlainCandidates(signals, bars))
  {
    hide Final, PlainCandidate, ProxyCandidate, ResearchCandidate;
    assert ProxyCandidates(signals, bars) == PlainCandidates(signals, bars) by {
      forall i | 0 <= i < |bars| ensures ProxyCandidate(signals, bars[i]) == PlainCandidate(signals, bars[i]) {
        ProxyIsTransparent(signals, bars[i]);
      }
    }
    if !overlay.allowUptrendContinuation {
      forall i | 0 <= i < |bars|
        ensures ResearchCandidate(signals, overlay, bars[i]) == PlainCandidate(signals, bars[i]) {
        OverlayOffIsTransparent(signals, overlay, bars[i]);
      }
      assert ResearchCandidates(signals, overlay, bars) == PlainCandidates(signals, bars);
    }
  }

  // ---------------------------------------------------------------- the counters

  datatype Counters = Counters(generated: nat, regimeBlocked: nat, governanceRejected: nat, riskRejected: nat)

  function Bit(b: bool): nat {
    if b then 1 else 0
  }

  /** Counting one bar: how many candidates were produced, whether the proxy blocked it, what became
      of the candidate. */
  function CountedBar(c: Counters, produced: nat, blocked: bool, decision: Decision): Counters {
    Counters(c.generated + produced + Bit(blocked), c.regimeBlocked + Bit(blocked),
             c.governanceRejected + Bit(decision.GovernanceRejected?), c.riskRejected + Bit(decision.RiskRejected?))
  }

  /** Counters that ran on from earlier ones. */
  function Plus(c: Counters, d: Counters): Counters {
    Counters(c.generated + d.generated, c.regimeBlocked + d.regimeBlocked,
             c.governanceRejected + d.governanceRejected, c.riskRejected + d.riskRejected)
  }

  function ProxyProduced(config: SignalConfig, bars: seq<Snapshot>): seq<nat> {
    seq(|bars|, i requires 0 <= i < |bars| => Bit(ProxyCandidate(config, bars[i]).Some?))
  }

  function ProxyBlocked(config: SignalConfig, bars: seq<Snapshot>): seq<bool> {
    seq(|bars|, i requires 0 <= i < |bars| => IsRegimeBlocked(config, Compute(bars[i]), bars[i].regime))
  }

  function ResearchProduced(config: SignalConfig, overlay: UptrendContinuationConfig, bars: seq<Snapshot>): seq<nat> {
    seq(|bars|, i requires 0 <= i < |bars| =>
      Bit(PlainCandidate(config, bars[i]).Some?) + Bit(OverlayCandidate(config, overlay, bars[i]).Some?))
  }

  function ResearchBlocked(config: SignalConfig, overlay: UptrendContinuationConfig, bars: seq<Snapshot>): seq<bool> {
    seq(|bars|, i requires 0 <= i < |bars| =>
      ResearchCandidate(config, overlay, bars[i]).None? && IsRegimeBlocked(config, Compute(bars[i]), bars[i].regime))
  }

  /** What became of the candidate of a bar. */
  function DecisionOf(config: RunConfig, rows: seq<RawFunding>, b: Books, s: Snapshot,
                      candidate: Option<SignalCandidate>): Decision {
    match Step(config, rows, b, s, candidate)
    case Ok(decided) => decided.decision
    case Err(_) => NoSignal
  }

  /** The counters after n bars of a run that got that far. */
  function CountersOf(config: RunConfig, rows: seq<RawFunding>, bars: seq<Snapshot>,
                      candidates: seq<Option<SignalCandidate>>, produced: seq<nat>, blocked: seq<bool>,
                      n: nat): Counters
    requires n <= |bars| == |candidates| == |produced| == |blocked|
  {
    if n == 0 then Counters(0, 0, 0, 0)
    else
      match Run(config, rows, bars, candidates, n - 1)
      case Err(_) => Counters(0, 0, 0, 0)
      case Ok(b) =>
        CountedBar(CountersOf(config, rows, bars, candidates, produced, blocked, n - 1), produced[n - 1],
                   blocked[n - 1], DecisionOf(config, rows, b, bars[n - 1], candidates[n - 1]))
  }

  /** The counters of an instrumented run. */
  function ProxyCounters(config: RunConfig, signals: SignalConfig, rows: seq<RawFunding>, bars: seq<Snapshot>,
                         n: nat): Counters
    requires n <= |bars|
  {
    CountersOf(config, rows, bars, ProxyCandidates(signals, bars), ProxyProduced(signals, bars),
               ProxyBlocked(signals, bars), n)
  }

  /** The counters of a research run. */
  function ResearchCounters(config: RunConfig, signals: SignalConfig, overlay: UptrendContinuationConfig,
                            rows: seq<RawFunding>, bars: seq<Snapshot>, n: nat): Counters
    requires n <= |bars|
  {
    CountersOf(config, rows, bars, ResearchCandidates(signals, overlay, bars), ResearchProduced(signals, overlay, bars),
               ResearchBlocked(signals, overlay, bars), n)
  }

  /** Bars on which both the signal engine and the overlay produced a candidate. */
  function DoubleBars(signals: SignalConfig, overlay: UptrendContinuationConfig, bars: seq<Snapshot>, n: nat): nat
    requires n <= |bars|
  {
    if n == 0 then 0
    else DoubleBars(signals, overlay, bars, n - 1)
         + Bit(PlainCandidate(signals, bars[n - 1]).Some? && OverlayCandidate(signals, overlay, bars[n - 1]).Some?)
  }

  /** A bar opens at most one position, and decides on a candidate exactly when there is one. */
  lemma BarDecides(config: RunConfig, rows: seq<RawFunding>, b: Books, s: Snapshot, candidate: Option<SignalCandidate>)
    requires Step(config, rows, b, s, candidate).Ok?
    ensures var d := Step(config, rows, b, s, candidate).value;
            && (d.decision.NoSignal? <==> candidate.None?)
            && |d.books.opens| == |b.opens| + Bit(d.decision.Executed?)
  {
    hide Sweep, Booked, NewRecord;
    var swept, mid, decided := StepShape(config, rows, b, s, candidate);
    hide Step;
    BookedKeeps(b, swept.closed);
    DecideShape(config, mid, s.timestamp, candidate);
  }

  /** Candidates produced beyond the one that was decided on. */
  function Surplus(candidates: seq<Option<SignalCandidate>>, produced: seq<nat>, n: nat): int
    requires n <= |candidates| == |produced|
  {
    if n == 0 then 0 else Surplus(candidates, produced, n - 1) + produced[n - 1] - Bit(candidates[n - 1].Some?)
  }

  lemma {:induction false} CountersBalance(config: RunConfig, rows: seq<RawFunding>, bars: seq<Snapshot>,
                                           candidates: seq<Option<SignalCandidate>>, produced: seq<nat>,
                                           blocked: seq<bool>, n: nat)
    requires n <= |bars| == |candidates| == |produced| == |blocked| && Run(config, rows, bars, candidates, n).Ok?
    ensures var c := CountersOf(config, rows, bars, candidates, produced, blocked, n);
            c.generated == c.regimeBlocked + c.governanceRejected + c.riskRejected
                           + |Run(config, rows, bars, candidates, n).value.opens| + Surplus(candidates, produced, n)
  {
    hide Step;
    if n > 0 {
      RunStep(config, rows, bars, candidates, n);
      CountersBalance(config, rows, bars, candidates, produced, blocked, n - 1);
      BarDecides(config, rows, Run(config, rows, bars, candidates, n - 1).value, bars[n - 1], candidates[n - 1]);
      hide Run;
    }
  }

  lemma {:induction false} ProxySurplus(signals: SignalConfig, bars: seq<Snapshot>, n: nat)
    requires n <= |bars|
    ensures Surplus(ProxyCandidates(signals, bars), ProxyProduced(signals, bars), n) == 0
  {
    hide ProxyCandidate;
    if n > 0 {
      ProxySurplus(signals, bars, n - 1);
    }
  }

  lemma {:induction false} ResearchSurplus(signals: SignalConfig, overlay: UptrendContinuationConfig,
                                           bars: seq<Snapshot>, n: nat)
    requires n <= |bars|
    ensures Surplus(ResearchCandidates(signals, overlay, bars), ResearchProduced(signals, overlay, bars), n)
         == DoubleBars(signals, overlay, bars, n)
  {
    hide PlainCandidate, OverlayCandidate;
    if n > 0 {
      ResearchSurplus(signals, overlay, bars, n - 1);
    }
  }

  lemma FinalOpens(config: RunConfig, rows: seq<RawFunding>, bars: seq<Snapshot>,
                   candidates: seq<Option<SignalCandidate>>)
    requires |bars| == |candidates| && Final(config, rows, bars, candidates).Ok?
    ensures Run(config, rows, bars, candidates, |bars|).Ok?
    ensures |Run(config, rows, bars, candidates, |bars|).value.opens|
            == |Final(config, rows, bars, candidates).value.closed|
  {
    hide Run, ForceClosedAll, Booked;
    OneTradePerOpening(config, rows, bars, candidates);
    var b := Run(config, rows, bars, candidates, |bars|).value;
    if |bars| > 0 && |b.open| > 0 {
      var last := bars[|bars| - 1];
      BookedKeeps(b, ForceClosedAll(config, rows, b.open, last.timestamp, last.price, |b.open|).value);
    }
  }

  /** Every signal counted was blocked by regime, rejected by governance, rejected by risk, or became
      one of the run's trades. */
  predicate FunnelAddsUp(c: Counters, trades: nat) {
    c.generated == c.regimeBlocked + c.governanceRejected + c.riskRejected + trades
  }

  /** The funnel of an instrumented run adds up. */
  lemma FunnelBalances(config: RunConfig, signals: SignalConfig, rows: seq<RawFunding>, bars: seq<Snapshot>)
    requires Final(config, rows, bars, ProxyCandidates(signals, bars)).Ok?
    ensures FunnelAddsUp(ProxyCounters(config, signals, rows, bars, |bars|),
                         |Final(config, rows, bars, ProxyCandidates(signals, bars)).value.closed|)
  {
    hide Final, Run, CountersOf, ProxyCandidate, IsRegimeBlocked;
    FinalOpens(config, rows, bars, ProxyCandidates(signals, bars));
    CountersBalance(config, rows, bars, ProxyCandidates(signals, bars), ProxyProduced(signals, bars),
                    ProxyBlocked(signals, bars), |bars|);
    ProxySurplus(signals, bars, |bars|);
  }

  lemma RunsOn(c: Counters, d: Counters, trades: nat)
    requires FunnelAddsUp(d, trades)
    ensures FunnelAddsUp(Plus(c, d), trades) <==> FunnelAddsUp(c, 0)
  {
  }

  /** An instrumented runner that is run twice keeps counting: the funnel of the second run adds up
      exactly when the first run made no trade. */
  lemma RerunBalancesIff(config: RunConfig, signals: SignalConfig, rows: seq<RawFunding>, first: seq<Snapshot>,
                         second: seq<Snapshot>)
    requires Final(config, rows, first, ProxyCandidates(signals, first)).Ok?
    requires Final(config, rows, second, ProxyCandidates(signals, second)).Ok?
    ensures FunnelAddsUp(Plus(ProxyCounters(config, signals, rows, first, |first|),
                              ProxyCounters(config, signals, rows, second, |second|)),
                         |Final(config, rows, second, ProxyCandidates(signals, second)).value.closed|)
       <==> |Final(config, rows, first, ProxyCandidates(signals, first)).value.closed| == 0
  {
    hide Final, ProxyCounters, ProxyCandidates;
    FunnelBalances(config, signals, rows, first);
    FunnelBalances(config, signals, rows, second);
  }

  /** The funnel of a research run adds up exactly when no bar has the fields that give it two candidates;
      each bar that has them leaves one signal unaccounted for. */
  lemma ResearchFunnelBalancesIff(config: RunConfig, signals: SignalConfig, overlay: UptrendContinuationConfig,
                                  rows: seq<RawFunding>, bars: seq<Snapshot>)
    requires Final(config, rows, bars, ResearchCandidates(signals, overlay, bars)).Ok?
    ensures FunnelAddsUp(ResearchCounters(config, signals, overlay, rows, bars, |bars|),
                         |Final(config, rows, bars, ResearchCandidates(signals, overlay, bars)).value.closed|)
       <==> forall i | 0 <= i < |bars| :: !IsDoubleBar(signals, overlay, bars[i])
  {
    hide Final, Run, CountersOf, PlainCandidate, OverlayCandidate, IsRegimeBlocked, IsDoubleBar;
    FinalOpens(config, rows, bars, ResearchCandidates(signals, overlay, bars));
    CountersBalance(config, rows, bars, ResearchCandidates(signals, overlay, bars),
                    ResearchProduced(signals, overlay, bars), ResearchBlocked(signals, overlay, bars), |bars|);
    ResearchSurplus(signals, overlay, bars, |bars|);
    NoDoubleBars(signals, overlay, bars, |bars|);
  }

  lemma {:induction false} NoDoubleBars(signals: SignalConfig, overlay: UptrendContinuationConfig, bars: seq<Snapshot>,
                                        n: nat)
    requires n <= |bars|
    ensures DoubleBars(signals, overlay, bars, n) == 0
            <==> forall i | 0 <= i < n :: !IsDoubleBar(signals, overlay, bars[i])
  {
    hide PlainCandidate, OverlayCandidate, IsDoubleBar;
    if n > 0 {
      NoDoubleBars(signals, overlay, bars, n - 1);
      BothCandidatesIff(signals, overlay, bars[n - 1]);
    }
  }

  /** While shorts are not allowed in an uptrend, as in every whitelist the settings define, the funnel of
      a research run adds up on every stream. */
  lemma ResearchFunnelBalances(config: RunConfig, signals: SignalConfig, overlay: UptrendContinuationConfig,
                               rows: seq<RawFunding>, bars: seq<Snapshot>)
    requires !IsDirectionAllowed(signals, Short, Uptrend)
    requires Final(config, rows, bars, ResearchCandidates(signals, overlay, bars)).Ok?
    ensures FunnelAddsUp(ResearchCounters(config, signals, overlay, rows, bars, |bars|),
                         |Final(config, rows, bars, ResearchCandidates(signals, overlay, bars)).value.closed|)
  {
    hide Final, ResearchCandidate, FunnelAddsUp, ResearchCounters;
    ResearchFunnelBalancesIff(config, signals, overlay, rows, bars);
  }

  /** The whitelists of the settings: the default one, with or without longs in an uptrend, and the
      experiment profile's. */
  function ShippedWhitelist(longInUptrend: bool, experiment: bool): map<Regime, seq<Direction>> {
    map[Normal := [Long], Compression := [Long], Downtrend := [Long, Short],
        Uptrend := if longInUptrend then [Long] else [],
        CrowdedLeverage := if experiment then [Long, Short] else [Short],
        PostLiquidation := [Long]]
  }

  /** None of them allows a short in an uptrend. */
  lemma ShippedWhitelistsBalance(signals: SignalConfig, longInUptrend: bool, experiment: bool)
    requires signals.regimeDirectionWhitelist == ShippedWhitelist(longInUptrend, experiment)
    ensures !IsDirectionAllowed(signals, Short, Uptrend)
  {
    assert Uptrend in signals.regimeDirectionWhitelist;
    assert signals.regimeDirectionWhitelist[Uptrend] == if longInUptrend then [Long] else [];
  }

  /** Between the two sources the overlay's candidate is taken only when there is no other or its score is higher. */
  lemma SelectionInPlainTerms(base: Option<SignalCandidate>, overlay: Option<SignalCandidate>)
    ensures Selected(base, overlay).Some? <==> base.Some? || overlay.Some?
    ensures base.Some? ==>
              (Selected(base, overlay) != base ==>
                 overlay.Some? && overlay.value.confluenceScore > base.value.confluenceScore)
    ensures base.Some? && overlay.Some? && overlay.value.confluenceScore > base.value.confluenceScore ==>
              Selected(base, overlay) == overlay
    ensures base.None? ==> Selected(base, overlay) == overlay
  {
  }

  /** When the overlay speaks, and what it says: a long at the levels of the signal engine, with its own reasons. */
  lemma OverlayInPlainTerms(config: SignalConfig, overlay: UptrendContinuationConfig, s: Snapshot)
    ensures var f, c := Compute(s), OverlayCandidate(config, overlay, s);
            && (c.Some? <==>
                  && overlay.allowUptrendContinuation && s.regime == Uptrend && f.sweepDetected && f.reclaimDetected
                  && f.sweepLevel != None && f.sweepSide == Some(High)
                  && (f.sweepDepthPct == None || f.sweepDepthPct.value >= config.minSweepDepthPct)
                  && f.tfi60s >= overlay.participationMin
                  && ReclaimStrength(s, f.sweepLevel.value) >= overlay.reclaimStrengthMin
                  && Confluence(config, f, Uptrend, Long) >= config.confluenceMin * overlay.confluenceMultiplier)
            && (c.Some? ==>
                  && c.value.direction == Long && c.value.confluenceScore == Confluence(config, f, Uptrend, Long)
                  && c.value.entryReference == BuildLevels(config, f, Long).entry
                  && c.value.invalidationLevel == BuildLevels(config, f, Long).invalidation
                  && c.value.tpReference1 == BuildLevels(config, f, Long).tp1
                  && c.value.reasons == Reasons(config, f, Uptrend, Long)
                                        + [UptrendContinuationAcceptance, UptrendContinuationParticipation])
    ensures Compute(s).timestamp == s.timestamp
  {
    hide ReclaimStrength, Confluence, Reasons, BuildLevels;
  }

  /** A bar closed strongly enough when it closed that many average ranges above the level. */
  lemma StrengthInPlainTerms(s: Snapshot, level: real, least: real)
    ensures var close := if s.lastCandle == None then s.price else s.lastCandle.value.close;
            var range := if s.features.atr15m < 0.00000001 then 0.00000001 else s.features.atr15m;
            ReclaimStrength(s, level) >= least <==> close - level >= Times(least, range)
  {
    QuotientAgainst(LatestClose(s) - level, Max(s.features.atr15m, TINY), least);
    hide Times;
  }
}
