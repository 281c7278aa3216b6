/** Walk-forward windows and the promotion verdict (research_lab/walkforward.py). */
module WalkForward {
  import opened Prelude
  import opened RealArith
  import opened Pareto
  import Calendar

  // ---------------------------------------------------------------- windows

  datatype WindowMode = Rolling | AnchoredExpanding | Unsupported

  datatype WindowProtocol = WindowProtocol(trainDays: int, validationDays: int, stepDays: int, mode: WindowMode)

  datatype Window = Window(trainStart: int, trainEnd: int, validationStart: int, validationEnd: int)

  function Cursor(start: int, p: WindowProtocol, k: nat): int {
    start + k * p.stepDays * Calendar.DAY
  }

  function WindowAt(start: int, p: WindowProtocol, cursor: int): Window {
    var trainEnd := cursor + p.trainDays * Calendar.DAY;
    Window(if p.mode.AnchoredExpanding? then start else cursor,
           trainEnd, trainEnd, trainEnd + p.validationDays * Calendar.DAY)
  }

  predicate Fits(start: int, end: int, p: WindowProtocol, cursor: int) {
    WindowAt(start, p, cursor).validationEnd <= end
  }

  /** The loop moves on by the step until a window no longer fits. It ends just when the step is
      positive, the mode is refused, or not even the first window fits. */
  predicate Terminates(start: int, end: int, p: WindowProtocol) {
    p.mode.Unsupported? || p.stepDays > 0 || !Fits(start, end, p, start)
  }

  method BuildWindows(start: int, end: int, p: WindowProtocol) returns (r: Option<seq<Window>>)
    requires Terminates(start, end, p)
    ensures r.None? <==> p.mode.Unsupported?
    ensures r.Some? ==> forall k: nat | k < |r.value| ::
            r.value[k] == WindowAt(start, p, Cursor(start, p, k)) && r.value[k].validationEnd <= end
    ensures r.Some? ==> !Fits(start, end, p, Cursor(start, p, |r.value|))
  {
    if p.mode.Unsupported? {
      return None;
    }
    var windows: seq<Window> := [];
    var cursor := start;
    while Fits(start, end, p, cursor)
      invariant cursor == Cursor(start, p, |windows|)
      invariant forall k: nat | k < |windows| ::
                windows[k] == WindowAt(start, p, Cursor(start, p, k)) && windows[k].validationEnd <= end
      invariant p.stepDays > 0 || |windows| == 0
      decreases end - cursor - (p.trainDays + p.validationDays) * Calendar.DAY
    {
      windows := windows + [WindowAt(start, p, cursor)];
      cursor := cursor + p.stepDays * Calendar.DAY;
    }
    return Some(windows);
  }

  /** Without a positive step a window that fits once fits for ever, so the loop has no last pass. */
  lemma {:induction false} StuckWithoutStep(start: int, end: int, p: WindowProtocol, k: nat)
    requires !Terminates(start, end, p)
    ensures Fits(start, end, p, Cursor(start, p, k))
  {
    if k > 0 {
      StuckWithoutStep(start, end, p, k - 1);
      assert Cursor(start, p, k) == Cursor(start, p, k - 1) + p.stepDays * Calendar.DAY;
    }
  }

  lemma StuckExample()
    ensures var p := WindowProtocol(1, 1, 0, Rolling);
            !Terminates(0, 2 * Calendar.DAY, p) && forall k: nat :: Fits(0, 2 * Calendar.DAY, p, Cursor(0, p, k))
  {
    forall k: nat ensures Fits(0, 2 * Calendar.DAY, WindowProtocol(1, 1, 0, Rolling),
                               Cursor(0, WindowProtocol(1, 1, 0, Rolling), k)) {
      StuckWithoutStep(0, 2 * Calendar.DAY, WindowProtocol(1, 1, 0, Rolling), k);
    }
  }

  lemma LaterCursor(start: int, p: WindowProtocol, i: nat, j: nat, days: int)
    requires i < j && days <= p.stepDays && 0 <= p.stepDays
    ensures Cursor(start, p, i) + days * Calendar.DAY <= Cursor(start, p, j)
  {
    StepsApart(i, j, p.stepDays);
  }

  lemma {:induction false} StepsApart(i: nat, j: nat, step: int)
    requires i < j && step >= 0
    ensures i * step + step <= j * step
  {
    assert (j - 1) * step + step == j * step;
    if i < j - 1 {
      StepsApart(i, j - 1, step);
    }
  }

  /** Once a window does not fit, no later one does: the windows built are all that fit. */
  lemma NoWindowMissed(start: int, end: int, p: WindowProtocol, i: nat, j: nat)
    requires p.stepDays > 0 && i <= j && !Fits(start, end, p, Cursor(start, p, i))
    ensures !Fits(start, end, p, Cursor(start, p, j))
  {
    if i < j {
      LaterCursor(start, p, i, j, 0);
    }
  }

  /** Stepping by at least a validation span, no moment is validated twice, and none is validated in
      a window that trains on it. */
  lemma ValidationsDisjoint(start: int, p: WindowProtocol, i: nat, j: nat)
    requires i < j && 0 <= p.validationDays <= p.stepDays
    ensures WindowAt(start, p, Cursor(start, p, i)).validationEnd <= WindowAt(start, p,
          Cursor(start, p, j)).validationStart
    ensures WindowAt(start, p, Cursor(start, p, j)).trainEnd == WindowAt(start, p, Cursor(start, p, j)).validationStart
  {
    LaterCursor(start, p, i, j, p.validationDays);
  }

  // ---------------------------------------------------------------- one segment

  datatype Limits = Limits(minExpectancyR: real, minProfitFactor: real, maxDrawdownPct: real, minSharpeRatio: real)

  predicate MeetsLimits(e: TrialEvaluation, limits: Limits) {
    && e.rejectedReason.None?
    && e.metrics.expectancyR >= limits.minExpectancyR
    && e.metrics.profitFactor >= limits.minProfitFactor
    && e.metrics.maxDrawdownPct <= limits.maxDrawdownPct
    && e.metrics.sharpeRatio >= limits.minSharpeRatio
  }

  /** The messages; `number` renders a figure for a message. */
  method SegmentFailures(e: TrialEvaluation, limits: Limits, number: real -> string) returns (failures: seq<string>)
    ensures failures == FailuresOf(e, limits, number)
  {
    failures := [];
    if e.rejectedReason.Some? {
      failures := failures + [e.rejectedReason.value];
    }
    if e.metrics.expectancyR < limits.minExpectancyR {
      failures := failures
        + ["expectancy_r=" + number(e.metrics.expectancyR) + " < min_expectancy_r=" + number(limits.minExpectancyR)];
    }
    if e.metrics.profitFactor < limits.minProfitFactor {
      failures := failures
        + ["profit_factor=" + number(e.metrics.profitFactor)
           + " < min_profit_factor=" + number(limits.minProfitFactor)];
    }
    if e.metrics.maxDrawdownPct > limits.maxDrawdownPct {
      failures := failures
        + ["max_drawdown_pct=" + number(e.metrics.maxDrawdownPct)
           + " > max_drawdown_pct=" + number(limits.maxDrawdownPct)];
    }
    if e.metrics.sharpeRatio < limits.minSharpeRatio {
      failures := failures
        + ["sharpe_ratio=" + number(e.metrics.sharpeRatio) + " < min_sharpe_ratio=" + number(limits.minSharpeRatio)];
    }
  }

  function OneIf(b: bool, message: string): seq<string> {
    if b then [message] else []
  }

  function FailuresOf(e: TrialEvaluation, limits: Limits, number: real -> string): (failures: seq<string>)
    ensures failures == [] <==> MeetsLimits(e, limits)
  {
    (if e.rejectedReason.Some? then [e.rejectedReason.value] else [])
    + OneIf(e.metrics.expectancyR < limits.minExpectancyR,
            "expectancy_r=" + number(e.metrics.expectancyR) + " < min_expectancy_r=" + number(limits.minExpectancyR))
    + OneIf(e.metrics.profitFactor < limits.minProfitFactor,
            "profit_factor=" + number(e.metrics.profitFactor)
            + " < min_profit_factor=" + number(limits.minProfitFactor))
    + OneIf(e.metrics.maxDrawdownPct > limits.maxDrawdownPct,
            "max_drawdown_pct=" + number(e.metrics.maxDrawdownPct)
            + " > max_drawdown_pct=" + number(limits.maxDrawdownPct))
    + OneIf(e.metrics.sharpeRatio < limits.minSharpeRatio,
            "sharpe_ratio=" + number(e.metrics.sharpeRatio) + " < min_sharpe_ratio=" + number(limits.minSharpeRatio))
  }

  function DegradationPct(inSample: real, outOfSample: real): real {
    if Abs(inSample) < 0.000000000001 then 0.0 else (inSample - outOfSample) / Abs(inSample) * 100.0
  }

  // ---------------------------------------------------------------- the verdict

  /** A window and what the backtests over its two segments gave. */
  datatype WindowEvaluation = WindowEvaluation(window: Window, train: TrialEvaluation, validation: TrialEvaluation)

  datatype Protocol = Protocol(
    limits: Limits,
    fragilityThresholdPct: real,
    requiresAllWindows: bool,
    requiresMedian: bool,
    protocolHash: string,
    number: real -> string,
    index: int -> string)

  datatype WalkForwardReport = WalkForwardReport(
    passed: bool,
    windowsTotal: nat,
    windowsPassed: nat,
    degradationPct: real,
    fragile: bool,
    reasons: seq<string>,
    protocolHash: string,
    windowResults: seq<WindowResult>,
    safetyFlags: SafetyFlags)

  datatype SegmentResult = SegmentResult(metrics: ObjectiveMetrics, failures: seq<string>)

  datatype WindowResult = WindowResult(
    index: nat,
    window: Window,
    train: SegmentResult,
    validation: SegmentResult,
    passed: bool,
    degradationPct: real)

  /** What calls for a review before a promotion. */
  datatype SafetyFlags = SafetyFlags(pnlSanity: bool, profitFactor: bool, outperformance: bool, lowTradeCount: bool)

  /** The result reported for a window. */
  ghost predicate Reports(r: WindowResult, w: WindowEvaluation, k: nat, p: Protocol) {
    && r.index == k && r.window == w.window && (r.passed <==> WindowPasses(w, p.limits))
    && r.train == SegmentResult(w.train.metrics, FailuresOf(w.train, p.limits, p.number))
    && r.validation == SegmentResult(w.validation.metrics, FailuresOf(w.validation, p.limits, p.number))
    && r.degradationPct == DegradationPct(w.train.metrics.expectancyR, w.validation.metrics.expectancyR)
  }

  predicate IncrediblePnl(m: ObjectiveMetrics) {
    Abs(m.pnlAbs) > 100_000.0
  }

  predicate IncredibleFactor(m: ObjectiveMetrics) {
    m.profitFactor > 5.0
  }

  /** The flags raised over the windows evaluated, whether these passed or not. */
  ghost predicate FlagsRaised(flags: SafetyFlags, windows: seq<WindowEvaluation>, p: Protocol) {
    var degradation := Mean(Degradations(windows, p.limits));
    && (flags.pnlSanity <==> exists w | w in windows ::
        IncrediblePnl(w.train.metrics) || IncrediblePnl(w.validation.metrics))
    && (flags.profitFactor <==> exists w | w in windows ::
        IncredibleFactor(w.train.metrics) || IncredibleFactor(w.validation.metrics))
    && (flags.outperformance <==> degradation > 30.0 || degradation < -25.0)
    && (flags.lowTradeCount <==> exists w | w in windows :: w.validation.metrics.tradesCount < 30)
  }

  predicate WindowPasses(w: WindowEvaluation, limits: Limits) {
    MeetsLimits(w.train, limits) && MeetsLimits(w.validation, limits)
  }

  /** The degradations of the windows that pass, in order. */
  function Degradations(windows: seq<WindowEvaluation>, limits: Limits): seq<real> {
    if |windows| == 0 then []
    else
      var w := windows[|windows| - 1];
      Degradations(windows[..|windows| - 1], limits)
      + (if WindowPasses(w, limits)
         then [DegradationPct(w.train.metrics.expectancyR, w.validation.metrics.expectancyR)]
         else [])
  }

  function Mean(xs: seq<real>): real {
    if |xs| == 0 then 0.0 else SumBy(xs, (x: real) => x) / |xs| as real
  }

  function Fragile(windows: seq<WindowEvaluation>, p: Protocol): bool {
    Mean(Degradations(windows, p.limits)) > p.fragilityThresholdPct
  }

  function HalfRoundedUp(n: nat): nat {
    (n + 1) / 2
  }

  /** Enough windows pass for the protocol's rule: all of them, at least half, or any. */
  function EnoughPass(passedCount: nat, total: nat, p: Protocol): bool {
    if p.requiresAllWindows then passedCount == total
    else if p.requiresMedian then passedCount >= HalfRoundedUp(total)
    else passedCount > 0
  }

  function Verdict(windows: seq<WindowEvaluation>, p: Protocol): bool {
    |windows| > 0 && EnoughPass(|Degradations(windows, p.limits)|, |windows|, p) && !Fragile(windows, p)
  }

  /** Neither of the two risk names that block a promotion: those begin with "wa". */
  predicate Harmless(reason: string) {
    |reason| >= 2 && !(reason[0] == 'w' && reason[1] == 'a')
  }

  lemma HarmlessPrefix(heading: string, rest: string)
    requires Harmless(heading)
    ensures Harmless(heading + rest)
  {
  }

  /** Every reason noted so far is harmless, and some reason is noted once a window has failed. */
  method NoteFailures(reasons: seq<string>, heading: string, failures: seq<string>) returns (noted: seq<string>)
    requires forall r | r in reasons :: Harmless(r)
    requires Harmless(heading)
    ensures forall r | r in noted :: Harmless(r)
    ensures |noted| == |reasons| + |failures| && noted[..|reasons|] == reasons
    ensures forall k | 0 <= k < |failures| :: noted[|reasons| + k] == heading + failures[k]
  {
    hide Harmless;
    noted := reasons;
    for i := 0 to |failures|
      invariant |noted| == |reasons| + i && noted[..|reasons|] == reasons
      invariant forall r | r in noted :: Harmless(r)
      invariant forall k | 0 <= k < i :: noted[|reasons| + k] == heading + failures[k]
    {
      HarmlessPrefix(heading, failures[i]);
      noted := noted + [heading + failures[i]];
    }
  }

  method NoteWindow(reasons: seq<string>, index: string, trainFailures: seq<string>, valFailures: seq<string>)
    returns (noted: seq<string>)
    requires forall r | r in reasons :: Harmless(r)
    ensures forall r | r in noted :: Harmless(r)
    ensures |noted| == |reasons| + |trainFailures| + |valFailures|
  {
    HarmlessPrefix("window_", index + "_train_failed: ");
    HarmlessPrefix("window_", index + "_validation_failed: ");
    noted := NoteFailures(reasons, "window_" + (index + "_train_failed: "), trainFailures);
    noted := NoteFailures(noted, "window_" + (index + "_validation_failed: "), valFailures);
  }

  function PromotionSafetyFlags(results: seq<WindowResult>, avgDegradation: real): SafetyFlags {
    SafetyFlags(
      exists r | r in results :: IncrediblePnl(r.train.metrics) || IncrediblePnl(r.validation.metrics),
      exists r | r in results :: IncredibleFactor(r.train.metrics) || IncredibleFactor(r.validation.metrics),
      Abs(avgDegradation) > 30.0 || avgDegradation < -25.0,
      exists r | r in results :: r.validation.metrics.tradesCount < 30)
  }

  lemma FlagsTellWindows(results: seq<WindowResult>, windows: seq<WindowEvaluation>, p: Protocol)
    requires |results| == |windows| && forall k: nat | k < |windows| :: Reports(results[k], windows[k], k, p)
    ensures FlagsRaised(PromotionSafetyFlags(results, Mean(Degradations(windows, p.limits))), windows, p)
  {
    hide Mean, Reports;
    AnyTells(results, windows, p, IncrediblePnl, IncrediblePnl);
    AnyTells(results, windows, p, IncredibleFactor, IncredibleFactor);
    AnyTells(results, windows, p, (m: ObjectiveMetrics) => false, (m: ObjectiveMetrics) => m.tradesCount < 30);
    hide IncrediblePnl, IncredibleFactor;
  }

  /** Some window's metrics are bad just when some result's are. */
  lemma AnyTells(results: seq<WindowResult>, windows: seq<WindowEvaluation>, p: Protocol,
                 badTraining: ObjectiveMetrics -> bool, badValidation: ObjectiveMetrics -> bool)
    requires |results| == |windows| && forall k: nat | k < |windows| :: Reports(results[k], windows[k], k, p)
    ensures (exists r | r in results :: badTraining(r.train.metrics) || badValidation(r.validation.metrics))
       <==> (exists w | w in windows :: badTraining(w.train.metrics) || badValidation(w.validation.metrics))
  {
    hide FailuresOf, WindowPasses, DegradationPct;
    if r :| r in results && (badTraining(r.train.metrics) || badValidation(r.validation.metrics)) {
      var k: nat :| k < |results| && results[k] == r;
      assert Reports(results[k], windows[k], k, p) && windows[k] in windows;
    }
    if w :| w in windows && (badTraining(w.train.metrics) || badValidation(w.validation.metrics)) {
      var k: nat :| k < |windows| && windows[k] == w;
      assert Reports(results[k], windows[k], k, p) && results[k] in results;
    }
  }

  method RunWalkforward(windows: seq<WindowEvaluation>, p: Protocol) returns (report: WalkForwardReport)
    ensures report.windowsTotal == |windows|
    ensures report.windowsPassed == |Degradations(windows, p.limits)|
    ensures report.degradationPct == Mean(Degradations(windows, p.limits))
    ensures report.fragile == Fragile(windows, p)
    ensures report.passed == Verdict(windows, p)
    ensures forall r | r in report.reasons :: Harmless(r)
    ensures !report.passed ==> |report.reasons| > 0
    ensures |report.windowResults| == |windows|
    ensures forall k: nat | k < |windows| :: Reports(report.windowResults[k], windows[k], k, p)
    ensures FlagsRaised(report.safetyFlags, windows, p) && report.protocolHash == p.protocolHash
  {
    hide Mean, Harmless, MeetsLimits, FailuresOf, EnoughPass, DegradationPct, FlagsRaised;
    var windowResults: seq<WindowResult> := [];
    var windowsPassed: nat := 0;
    var degradations: seq<real> := [];
    var reasons: seq<string> := [];
    for i := 0 to |windows|
      invariant degradations == Degradations(windows[..i], p.limits)
      invariant windowsPassed == |degradations| <= i
      invariant forall r | r in reasons :: Harmless(r)
      invariant windowsPassed < i ==> |reasons| > 0
      invariant |windowResults| == i && forall k: nat | k < i :: Reports(windowResults[k], windows[k], k, p)
    {
      assert windows[..i + 1][..i] == windows[..i];
      var w := windows[i];
      var trainFailures := SegmentFailures(w.train, p.limits, p.number);
      var valFailures := SegmentFailures(w.validation, p.limits, p.number);
      var degradation := DegradationPct(w.train.metrics.expectancyR, w.validation.metrics.expectancyR);
      var windowPassed := trainFailures == [] && valFailures == [];
      var train, validation := SegmentResult(w.train.metrics, trainFailures),
          SegmentResult(w.validation.metrics, valFailures);
      windowResults := windowResults + [WindowResult(i, w.window, train, validation, windowPassed, degradation)];
      if windowPassed {
        windowsPassed := windowsPassed + 1;
        degradations := degradations + [degradation];
        continue;
      }
      reasons := NoteWindow(reasons, p.index(i), trainFailures, valFailures);
    }
    assert windows[..|windows|] == windows;
    FlagsTellWindows(windowResults, windows, p);
    report := Concluded(|windows|, degradations, reasons, windowResults, p);
  }

  method Concluded(total: nat, degradations: seq<real>, noted: seq<string>, windowResults: seq<WindowResult>,
                   p: Protocol)
    returns (report: WalkForwardReport)
    requires |degradations| <= total
    requires forall r | r in noted :: Harmless(r)
    requires |degradations| < total ==> |noted| > 0
    ensures report.windowsTotal == total && report.windowsPassed == |degradations|
    ensures report.degradationPct == Mean(degradations)
    ensures report.fragile == (Mean(degradations) > p.fragilityThresholdPct)
    ensures report.passed == (total > 0 && EnoughPass(|degradations|, total, p) && !report.fragile)
    ensures forall r | r in report.reasons :: Harmless(r)
    ensures !report.passed ==> |report.reasons| > 0
    ensures report.protocolHash == p.protocolHash
    ensures report.windowResults == windowResults
            && report.safetyFlags == PromotionSafetyFlags(windowResults, Mean(degradations))
  {
    var windowsPassed, reasons := |degradations|, noted;
    if total == 0 {
      reasons := reasons + ["no_windows_available"];
    }
    var avgDegradation := Mean(degradations);
    var fragile := avgDegradation > p.fragilityThresholdPct;
    if fragile {
      HarmlessPrefix("fragility_threshold_exceeded: ",
                     p.number(avgDegradation) + "% > " + p.number(p.fragilityThresholdPct) + "%");
      reasons := reasons
        + ["fragility_threshold_exceeded: "
           + (p.number(avgDegradation) + "% > " + p.number(p.fragilityThresholdPct) + "%")];
    }
    var passed: bool;
    if p.requiresAllWindows {
      passed := total > 0 && windowsPassed == total && !fragile;
    } else if p.requiresMedian {
      var medianRequired := if total > 0 then HalfRoundedUp(total) else 0;
      passed := total > 0 && windowsPassed >= medianRequired && !fragile;
      if total > 0 && windowsPassed < medianRequired {
        HarmlessPrefix("median_windows_not_met: ", p.index(windowsPassed) + "/" + p.index(total));
        reasons := reasons + ["median_windows_not_met: " + (p.index(windowsPassed) + "/" + p.index(total))];
      }
    } else {
      passed := total > 0 && windowsPassed > 0 && !fragile;
    }
    if total > 0 && windowsPassed == 0 {
      reasons := reasons + ["no_window_passed"];
    }
    var safetyFlags := PromotionSafetyFlags(windowResults, avgDegradation);
    report := WalkForwardReport(passed, total, windowsPassed, avgDegradation, fragile, reasons, p.protocolHash,
                                windowResults, safetyFlags);
  }

  // ---------------------------------------------------------------- what the verdict means

  /** The number of passing windows is the whole number just when every window meets the limits in
      training and in validation, and positive just when some window does. */
  lemma {:induction false} PassCountMeaning(windows: seq<WindowEvaluation>, limits: Limits)
    ensures |Degradations(windows, limits)| <= |windows|
    ensures |Degradations(windows, limits)| == |windows| <==> forall w | w in windows :: WindowPasses(w, limits)
    ensures |Degradations(windows, limits)| > 0 <==> exists w | w in windows :: WindowPasses(w, limits)
  {
    hide WindowPasses;
    if |windows| > 0 {
      var n := |windows| - 1;
      PassCountMeaning(windows[..n], limits);
      assert windows == windows[..n] + [windows[n]];
    }
  }

  function Ruled(p: Protocol, all: bool, median: bool): Protocol {
    p.(requiresAllWindows := all, requiresMedian := median)
  }

  /** A pass is never fragile; passing when all windows must pass implies passing when half must,
      which implies passing when any must, on the same evaluations. */
  lemma RulesAreOrdered(windows: seq<WindowEvaluation>, p: Protocol, median: bool)
    ensures Verdict(windows, p) ==> !Fragile(windows, p)
    ensures Verdict(windows, Ruled(p, true, median)) ==> Verdict(windows, Ruled(p, false, true))
    ensures Verdict(windows, Ruled(p, false, true)) ==> Verdict(windows, Ruled(p, false, false))
    ensures Verdict(windows, Ruled(p, true, median)) ==> forall w | w in windows :: WindowPasses(w, p.limits)
    ensures Verdict(windows, p) ==> exists w | w in windows :: WindowPasses(w, p.limits)
  {
    PassCountMeaning(windows, p.limits);
  }

  // ---------------------------------------------------------------- in plain terms

  /** Spans in days: a window trains from its cursor, or from the start if it is anchored, and validates after that. */
  lemma WindowInPlainTerms(start: int, p: WindowProtocol, cursor: int)
    ensures var w := WindowAt(start, p, cursor);
            && w.trainStart == (if p.mode == AnchoredExpanding then start else cursor)
            && w.trainEnd == cursor + p.trainDays * 86_400_000_000 && w.validationStart == w.trainEnd
            && w.validationEnd == w.validationStart + p.validationDays * 86_400_000_000
  {
  }

  /** How much of the expectancy is lost from training to validation, in percent of its size. */
  lemma DegradationInPlainTerms(inSample: real, outOfSample: real)
    ensures inSample >= 0.000000000001 ==>
              Times(DegradationPct(inSample, outOfSample), inSample) == (inSample - outOfSample) * 100.0
    ensures inSample <= -0.000000000001 ==>
              Times(DegradationPct(inSample, outOfSample), -inSample) == (inSample - outOfSample) * 100.0
    ensures -0.000000000001 < inSample < 0.000000000001 ==> DegradationPct(inSample, outOfSample) == 0.0
  {
    if Abs(inSample) >= 0.000000000001 {
      QuotientTimes(inSample - outOfSample, Abs(inSample));
      var q := (inSample - outOfSample) / Abs(inSample);
      assert q * 100.0 * Abs(inSample) == q * Abs(inSample) * 100.0;
    }
  }

  lemma DegradationExample()
    ensures DegradationPct(0.4, 0.1) == 75.0 && DegradationPct(-0.4, -0.5) == 25.0
  {
  }

  /** A mean times its count is the sum, and of nothing it is zero. */
  lemma MeanInPlainTerms(xs: seq<real>)
    ensures Times(Mean(xs), |xs| as real) == SumBy(xs, (x: real) => x)
    ensures xs == [] ==> Mean(xs) == 0.0
  {
    if |xs| > 0 {
      QuotientTimes(SumBy(xs, (x: real) => x), |xs| as real);
    }
  }

  /** Half of the windows, one more than half of the others if their number is odd. */
  lemma HalfInPlainTerms(n: nat)
    ensures n <= 2 * HalfRoundedUp(n) <= n + 1
  {
  }

  /** A segment meets the limits when it was not rejected and no figure is on the wrong side of its limit. */
  lemma LimitsInPlainTerms(e: TrialEvaluation, limits: Limits)
    ensures MeetsLimits(e, limits) <==>
              && e.rejectedReason == None && !(e.metrics.expectancyR < limits.minExpectancyR)
              && !(e.metrics.profitFactor < limits.minProfitFactor)
              && !(e.metrics.maxDrawdownPct > limits.maxDrawdownPct)
              && !(e.metrics.sharpeRatio < limits.minSharpeRatio)
  {
  }

  /** What is beyond belief: more than a hundred thousand made or lost, or a profit factor above five. */
  lemma IncredibleInPlainTerms(m: ObjectiveMetrics)
    ensures IncrediblePnl(m) <==> m.pnlAbs > 100000.0 || m.pnlAbs < -100000.0
    ensures IncredibleFactor(m) <==> m.profitFactor > 5.0
  {
  }
}
