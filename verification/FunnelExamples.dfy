/** Concrete runs whose signal counters do not add up: two candidates on one bar, and a runner used twice. */
module FunnelExamples {
  import opened Prelude
  import opened RealArith
  import opened Models
  import opened Funding
  import opened FillModel
  import opened RuntimeLimits
  import opened Ledger
  import opened LedgerSettlement
  import opened SignalEngine
  import opened Funnel
  import opened Sorting
  import Calendar
  import Governance
  import Performance
  import RiskEngine

  /** A configuration that allows shorts in an uptrend and asks for no score, */
  function ShortInUptrend(): SignalConfig {
    SignalConfig(0.0, 0.0, 0.0, 0.0, 1.0, 0.0, 2.0, 3.0, 0.0, 0.0, 0.0, 0.0, 0.0, 0.0, 0.0, 0.0, 0.0, 0.0, 0.0, false,
                 0.0, 0.0, 0.0, map[Uptrend := [Short]])
  }

  /** and a swept and reclaimed high with bearish divergence, closing above the level. */
  function SweptHigh(): Snapshot {
    Snapshot(
      0, 101.0, None,
      Features(0, 1.0, 100.0, 100.0, true, true, Some(100.0), None, Some(High), 0.0, false, true, 0.0, false),
      Uptrend, None)
  }

  /** On that bar both sources speak. The run over it ends without an error, here because governance
      allows no trade at all, and its funnel does not add up: two signals, one rejection, no trade. */
  lemma FunnelOffExample(config: RunConfig, rows: seq<RawFunding>)
    requires config.governance.maxTradesPerDay <= 0
    ensures var overlay, bars := UptrendContinuationConfig(true, 0.0, 0.0, 1.0), [SweptHigh()];
            var final := Final(config, rows, bars, ResearchCandidates(ShortInUptrend(), overlay, bars));
            && final.Ok?
            && !FunnelAddsUp(ResearchCounters(config, ShortInUptrend(), overlay, rows, bars, 1), |final.value.closed|)
  {
    hide Final, ResearchCandidate, FunnelAddsUp, ResearchCounters, IsDoubleBar;
    var overlay, bars := UptrendContinuationConfig(true, 0.0, 0.0, 1.0), [SweptHigh()];
    NoTradesAllowed(config, rows, SweptHigh(), ResearchCandidates(ShortInUptrend(), overlay, bars));
    SweptHighIsDouble();
    ResearchFunnelBalancesIff(config, ShortInUptrend(), overlay, rows, bars);
    assert bars[0] == SweptHigh();
  }

  lemma NoTradesAllowed(config: RunConfig, rows: seq<RawFunding>, s: Snapshot, candidates: seq<Option<SignalCandidate>>)
    requires config.governance.maxTradesPerDay <= 0 && |candidates| == 1
    ensures Final(config, rows, [s], candidates).Ok?
  {
    hide RiskEngine.Evaluate, DailyDrawdown, WeeklyDrawdown, TailLosses;
    var b := Start(config);
    assert OnDate(b.opens, Calendar.Date(s.timestamp)) == 0;
    assert !Gated(config, b, s.timestamp, candidates[0]).Pass?;
    assert Step(config, rows, b, s, candidates[0]).Ok?;
    assert Run(config, rows, [s], candidates, 0) == Ok(b);
  }

  lemma SweptHighIsDouble()
    ensures IsDoubleBar(ShortInUptrend(), UptrendContinuationConfig(true, 0.0, 0.0, 1.0), SweptHigh())
  {
    hide Confluence;
    NoScore(SweptHigh().features, Short);
    NoScore(SweptHigh().features, Long);
    assert ReclaimStrength(SweptHigh(), 100.0) >= 0.0;
  }

  lemma NoScore(f: Features, d: Direction)
    ensures Confluence(ShortInUptrend(), f, Uptrend, d) == 0.0
  {
    hide Reasons;
    NoWeightNoScore(Reasons(ShortInUptrend(), f, Uptrend, d));
  }

  /** Read off the sources themselves. */
  lemma BothSpeak()
    ensures PlainCandidate(ShortInUptrend(), SweptHigh()).Some?
    ensures OverlayCandidate(ShortInUptrend(), UptrendContinuationConfig(true, 0.0, 0.0, 1.0), SweptHigh()).Some?
  {
    hide PlainCandidate, OverlayCandidate, IsDoubleBar;
    SweptHighIsDouble();
    BothCandidatesIff(ShortInUptrend(), UptrendContinuationConfig(true, 0.0, 0.0, 1.0), SweptHigh());
  }

  lemma {:induction false} NoWeightNoScore(reasons: seq<Reason>)
    ensures SumBy(reasons, WeightOf(ShortInUptrend())) == 0.0
  {
    if |reasons| > 0 {
      NoWeightNoScore(reasons[..|reasons| - 1]);
    }
  }

  // ---------------------------------------------------------------- one runner, two runs

  /** Settings that let one trade through. */
  function OneTrade(): RunConfig {
    RunConfig(
      1000.0, Market, FillModelConfig(0.0, 0.0, 0.0, 0.0),
      RiskEngine.RiskConfig(0.01, 5, 3, 1.0, 1, 1, 1.0, 1.0, 24, 1.0, 0.0, 0.0),
      Governance.GovernanceConfig(0, 0.0, 0, 1, 1, 1.0, 1.0, 0, 23, []))
  }

  /** Run twice over the bar above, an instrumented runner trades in both runs, and the counters it
      then shows do not add up with the trades of the second. */
  lemma RerunExample(rows: seq<RawFunding>)
    ensures var config, signals, bars := OneTrade(), ShortInUptrend(), [SweptHigh()];
            var final := Final(config, rows, bars, ProxyCandidates(signals, bars));
            var counted := ProxyCounters(config, signals, rows, bars, 1);
            && final.Ok? && |final.value.closed| == 1
            && FunnelAddsUp(counted, 1) && !FunnelAddsUp(Plus(counted, counted), 1)
  {
    hide Final, ProxyCounters, ProxyCandidate, ProxyCandidates, FunnelAddsUp, Plus;
    SweptHighTrades(rows);
    FunnelBalances(OneTrade(), ShortInUptrend(), rows, [SweptHigh()]);
    RerunBalancesIff(OneTrade(), ShortInUptrend(), rows, [SweptHigh()], [SweptHigh()]);
  }

  lemma SweptHighTrades(rows: seq<RawFunding>)
    ensures var final := Final(OneTrade(), rows, [SweptHigh()], ProxyCandidates(ShortInUptrend(), [SweptHigh()]));
            final.Ok? && |final.value.closed| == 1
  {
    var c := PlainCandidate(ShortInUptrend(), SweptHigh());
    SweptHighShort();
    ProxyIsTransparent(ShortInUptrend(), SweptHigh());
    hide PlainCandidate, ProxyCandidate;
    assert ProxyCandidates(ShortInUptrend(), [SweptHigh()]) == [c];
    CandidateTrades(rows, SweptHigh(), c.value);
  }

  lemma SweptHighShort()
    ensures var c := PlainCandidate(ShortInUptrend(), SweptHigh());
            c.Some? && IsShortAtHundred(c.value)
  {
    BothSpeak();
    ShortLevels();
    hide Confluence, Reasons, OverlayCandidate, BuildLevels;
  }

  lemma ShortLevels()
    ensures var levels := BuildLevels(ShortInUptrend(), Compute(SweptHigh()), Short);
            levels.entry == 100.0 && levels.invalidation == 101.0 && levels.tp1 == 98.0
  {
    hide Times, StopDistance;
    TimesRange(0.0);
    TimesRange(1.0);
    TimesRange(2.0);
    StopOfOne();
  }

  lemma TimesRange(mult: real)
    ensures Times(1.0, mult) == mult
  {
  }

  lemma StopOfOne()
    ensures StopDistance(100.0, 101.0, 0.0) == 1.0
  {
  }

  predicate IsShortAtHundred(c: SignalCandidate) {
    && c.timestamp == 0 && c.direction.Short?
    && c.entryReference == 100.0 && c.invalidationLevel == 101.0 && c.tpReference1 == 98.0
  }

  lemma CandidateTrades(rows: seq<RawFunding>, s: Snapshot, c: SignalCandidate)
    requires s.timestamp == 0 && s.price > 0.0 && IsShortAtHundred(c)
    ensures var final := Final(OneTrade(), rows, [s], [Some(c)]);
            final.Ok? && |final.value.closed| == 1
  {
    hide Gated, Opened, Simulate, ForceClosedAll, Booked;
    var decided := FirstBar(rows, s, c);
    RunOnce(rows, s, c, decided.books);
    hide Run, Step;
    var r := decided.books.open[0];
    assert decided.books.open == [r];
    ForcedOut(rows, r, s.price);
    assert Final(OneTrade(), rows, [s], [Some(c)]).Ok?;
    FinalOpens(OneTrade(), rows, [s], [Some(c)]);
  }

  lemma FirstBar(rows: seq<RawFunding>, s: Snapshot, c: SignalCandidate) returns (decided: Decided)
    requires s.timestamp == 0 && IsShortAtHundred(c)
    ensures Step(OneTrade(), rows, Start(OneTrade()), s, Some(c)) == Ok(decided)
    ensures |decided.books.open| == |decided.books.opens| == 1 && decided.books.closed == []
    ensures decided.books.open[0].position.size > 0.0 && decided.books.open[0].lastFundingAccrualAt == Some(0)
  {
    GatesPass(c);
    hide Gated, Simulate;
    var b := Start(OneTrade());
    assert Booked(b, []).(open := []) == b;
    assert AfterClosing(OneTrade(), rows, b, s) == Ok(b);
    decided := Step(OneTrade(), rows, b, s, Some(c)).value;
  }

  /** With nothing on record every limit holds. */
  lemma GatesPass(c: SignalCandidate)
    requires IsShortAtHundred(c)
    ensures var gate := Gated(OneTrade(), Start(OneTrade()), 0, Some(c));
            && gate.Pass? && gate.size > 0.0
            && gate.candidate == c.(signalId := 1)
  {
    NothingOnRecord();
    var runtime := Runtime(0, [], [], [], 1000.0);
    var x := Governance.ToExecutable(c.(signalId := 1));
    assert OneTrade().StartingEquity() == 1000.0;
    assert x.rrRatio == 2.0;
    RiskEngine.AllowedIff(OneTrade().risk, runtime.ForRisk(), x, 1000.0, 0);
    RiskEngine.SizeIsCapped(OneTrade().risk, runtime.ForRisk(), x, 1000.0, 0);
    hide Runtime, RiskEngine.Evaluate;
  }

  lemma NothingOnRecord()
    ensures Runtime(0, [], [], [], 1000.0) == RuntimeState(0, 0, 0, 0.0, 0.0, None, None)
  {
    NoEvents(Calendar.DayStart(0), Calendar.DayStart(0) + Calendar.DAY);
    NoEvents(Calendar.WeekStart(0), Calendar.WeekStart(0) + 7 * Calendar.DAY);
    hide PeriodDrawdown;
  }

  lemma NoEvents(start: int, end: int)
    ensures PeriodDrawdown([], start, end, 1000.0) == 0.0
  {
    hide Performance.DrawdownOf;
    Performance.NoDrawdown(1000.0);
    assert SumBy([], BookedBefore(start)) == 0.0;
    assert StableSort([], NoLater) == [] && Within([], start, end) == [];
  }

  lemma RunOnce(rows: seq<RawFunding>, s: Snapshot, c: SignalCandidate, b: Books)
    requires Step(OneTrade(), rows, Start(OneTrade()), s, Some(c)).Ok?
             && b == Step(OneTrade(), rows, Start(OneTrade()), s, Some(c)).value.books
    ensures Run(OneTrade(), rows, [s], [Some(c)], 1) == Ok(b)
  {
    hide Step;
    assert Run(OneTrade(), rows, [s], [Some(c)], 0) == Ok(Start(OneTrade()));
  }

  lemma ForcedOut(rows: seq<RawFunding>, r: Record, price: real)
    requires price > 0.0 && r.position.size > 0.0 && r.lastFundingAccrualAt == Some(0)
    ensures ForceClosedAll(OneTrade(), rows, [r], 0, price, 1).Ok?
  {
    var appended := r.(candlesPath := AppendCandle(r.candlesPath, ClosingCandle(0, price)));
    assert Accrued(r, rows, 0) == r;
    SettledSize(OneTrade(), appended, price, EndOfBacktest, 0);
    hide Settle;
    assert ForceClosedAll(OneTrade(), rows, [r], 0, price, 0) == Ok([]);
  }
}
