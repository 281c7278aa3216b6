/** From features and regime to a trade candidate, or to the reason there is none (core/signal_engine.py). */
module SignalEngine {
  import opened Prelude
  import opened Models
  import opened RealArith

  datatype SignalConfig = SignalConfig(
    confluenceMin: real,
    minSweepDepthPct: real,
    emaTrendGapPct: real,
    entryOffsetAtr: real,
    invalidationOffsetAtr: real,
    minStopDistancePct: real,
    tp1AtrMult: real,
    tp2AtrMult: real,
    weightSweepDetected: real,
    weightReclaimConfirmed: real,
    weightCvdDivergence: real,
    weightTfiImpulse: real,
    weightForceOrderSpike: real,
    weightRegimeSpecial: real,
    weightEmaTrendAlignment: real,
    weightFundingSupportive: real,
    directionTfiThreshold: real,
    directionTfiThresholdInverse: real,
    tfiImpulseThreshold: real,
    allowUptrendPullback: bool,
    uptrendPullbackTfiThreshold: real,
    uptrendPullbackMinSweepDepthPct: real,
    uptrendPullbackConfluenceMin: real,
    regimeDirectionWhitelist: map<Regime, seq<Direction>>)

  datatype BlockedBy =
    | NoSweep
    | MissingSweepLevel
    | UptrendPullbackWeak
    | RegimeDirectionWhitelist
    | SweepTooShallow
    | UptrendContinuationWeak
    | NoReclaim
    | DirectionUnresolved
    | ConfluenceBelowMin

  datatype SignalDiagnostics = SignalDiagnostics(
    blockedBy: Option<BlockedBy>,
    directionInferred: Option<Direction>,
    directionAllowed: Option<bool>,
    confluencePreview: Option<real>,
    candidateReasonsPreview: seq<Reason>)

  function InferDirection(config: SignalConfig, f: Features): Option<Direction> {
    var inferred :=
      if f.cvdBullishDivergence && !f.cvdBearishDivergence then Some(Long)
      else if f.cvdBearishDivergence && !f.cvdBullishDivergence then Some(Short)
      else if f.tfi60s > config.directionTfiThreshold then Some(Long)
      else if f.tfi60s < config.directionTfiThresholdInverse then Some(Short)
      else None;
    if inferred == Some(Long) && f.sweepSide != Some(Low) then None
    else if inferred == Some(Short) && f.sweepSide != Some(High) then None
    else inferred
  }

  function EmaGapPct(f: Features): real {
    if f.ema200 == 0.0 then 0.0 else (f.ema50 - f.ema200) / f.ema200
  }

  predicate IsUptrendPullbackContext(config: SignalConfig, f: Features, regime: Regime) {
    config.allowUptrendPullback && regime.Uptrend? && !f.reclaimDetected && f.sweepSide == Some(Low)
  }

  function InferUptrendContinuationDirection(config: SignalConfig, f: Features): Option<Direction> {
    if f.sweepSide == Some(High) && EmaGapPct(f) > config.emaTrendGapPct && f.tfi60s > config.directionTfiThreshold
    then Some(Long) else None
  }

  function InferUptrendPullbackDirection(config: SignalConfig, f: Features): Option<Direction> {
    var depth := if f.sweepDepthPct.Some? then f.sweepDepthPct.value else 0.0;
    if f.sweepSide == Some(Low) && f.tfi60s > config.uptrendPullbackTfiThreshold && f.ema50 > f.ema200
       && depth > config.uptrendPullbackMinSweepDepthPct
    then Some(Long) else None
  }

  predicate IsDirectionAllowed(config: SignalConfig, direction: Direction, regime: Regime) {
    regime in config.regimeDirectionWhitelist && direction in config.regimeDirectionWhitelist[regime]
  }

  predicate IsRegimeSpecialSupportive(direction: Direction, regime: Regime) {
    if direction.Short? then regime.Downtrend? || regime.CrowdedLeverage? else regime.PostLiquidation?
  }

  predicate TooShallow(config: SignalConfig, f: Features) {
    f.sweepDepthPct.Some? && f.sweepDepthPct.value < config.minSweepDepthPct
  }

  /** What each reason adds to the confluence score. */
  function Weight(config: SignalConfig, r: Reason): real {
    match r
      case LiquiditySweepDetected => config.weightSweepDetected
      case ReclaimConfirmed => config.weightReclaimConfirmed
      case CvdBullishDivergence => config.weightCvdDivergence
      case CvdBearishDivergence => config.weightCvdDivergence
      case TfiImpulse => config.weightTfiImpulse
      case ForceOrderSpike => config.weightForceOrderSpike
      case RegimeSpecial => config.weightRegimeSpecial
      case EmaTrendAlignment => config.weightEmaTrendAlignment
      case FundingSupportive => config.weightFundingSupportive
      case _ => 0.0
  }

  function WeightOf(config: SignalConfig): Reason -> real {
    (r: Reason) => Weight(config, r)
  }

  function Extend(reasons: seq<Reason>, holds: bool, reason: Reason): seq<Reason> {
    if holds then reasons + [reason] else reasons
  }

  /** The reasons that hold for a direction, in reporting order. */
  function Reasons(config: SignalConfig, f: Features, regime: Regime, direction: Direction): seq<Reason> {
    var r1 := Extend([], f.sweepDetected, LiquiditySweepDetected);
    var r2 := Extend(r1, f.reclaimDetected, ReclaimConfirmed);
    var r3 := Extend(r2, direction == Long && f.cvdBullishDivergence, CvdBullishDivergence);
    var r4 := Extend(r3, direction == Short && f.cvdBearishDivergence, CvdBearishDivergence);
    var r5 := Extend(r4, direction == Long && f.tfi60s >= config.tfiImpulseThreshold, TfiImpulse);
    var r6 := Extend(r5, direction == Short && f.tfi60s <= -config.tfiImpulseThreshold, TfiImpulse);
    var r7 := Extend(r6, f.forceOrderSpike, ForceOrderSpike);
    var r8 := Extend(r7, IsRegimeSpecialSupportive(direction, regime), RegimeSpecial);
    var r9 := Extend(r8, direction == Long && f.ema50 >= f.ema200, EmaTrendAlignment);
    var r10 := Extend(r9, direction == Short && f.ema50 <= f.ema200, EmaTrendAlignment);
    var r11 := Extend(r10, direction == Long && f.funding8h <= 0.0, FundingSupportive);
    var r12 := Extend(r11, direction == Short && f.funding8h >= 0.0, FundingSupportive);
    r12
  }

  /** The score is the total weight of the reasons that hold. */
  function Confluence(config: SignalConfig, f: Features, regime: Regime, direction: Direction): real {
    SumBy(Reasons(config, f, regime, direction), WeightOf(config))
  }

  lemma Credited(config: SignalConfig, reasons: seq<Reason>, reason: Reason)
    ensures SumBy(reasons + [reason], WeightOf(config)) == SumBy(reasons, WeightOf(config)) + Weight(config, reason)
  {
    assert (reasons + [reason])[..|reasons|] == reasons;
  }

  method ConfluenceScore(config: SignalConfig, f: Features, regime: Regime, direction: Direction)
    returns (score: real, reasons: seq<Reason>)
    ensures reasons == Reasons(config, f, regime, direction)
    ensures score == SumBy(reasons, WeightOf(config))
  {
    hide SumBy, IsRegimeSpecialSupportive, Extend, WeightOf, Confluence, Weight;
    score, reasons := 0.0, [];
    NoReasonsNoScore(config);
    WeightsOfReasons(config);
    score, reasons := CreditIf(config, score, reasons, f.sweepDetected,
                               config.weightSweepDetected, LiquiditySweepDetected);
    score, reasons := CreditIf(config, score, reasons, f.reclaimDetected,
                               config.weightReclaimConfirmed, ReclaimConfirmed);
    score, reasons := CreditIf(config, score, reasons, direction == Long && f.cvdBullishDivergence,
                               config.weightCvdDivergence, CvdBullishDivergence);
    score, reasons := CreditIf(config, score, reasons, direction == Short && f.cvdBearishDivergence,
                               config.weightCvdDivergence, CvdBearishDivergence);
    score, reasons := CreditIf(config, score, reasons, direction == Long && f.tfi60s >= config.tfiImpulseThreshold,
                               config.weightTfiImpulse, TfiImpulse);
    score, reasons := CreditIf(config, score, reasons, direction == Short && f.tfi60s <= -config.tfiImpulseThreshold,
                               config.weightTfiImpulse, TfiImpulse);
    score, reasons := CreditIf(config, score, reasons, f.forceOrderSpike,
                               config.weightForceOrderSpike, ForceOrderSpike);
    score, reasons := CreditIf(config, score, reasons, IsRegimeSpecialSupportive(direction, regime),
                               config.weightRegimeSpecial, RegimeSpecial);
    score, reasons := CreditIf(config, score, reasons, direction == Long && f.ema50 >= f.ema200,
                               config.weightEmaTrendAlignment, EmaTrendAlignment);
    score, reasons := CreditIf(config, score, reasons, direction == Short && f.ema50 <= f.ema200,
                               config.weightEmaTrendAlignment, EmaTrendAlignment);
    score, reasons := CreditIf(config, score, reasons, direction == Long && f.funding8h <= 0.0,
                               config.weightFundingSupportive, FundingSupportive);
    score, reasons := CreditIf(config, score, reasons, direction == Short && f.funding8h >= 0.0,
                               config.weightFundingSupportive, FundingSupportive);
  }

  lemma WeightsOfReasons(config: SignalConfig)
    ensures Weight(config, LiquiditySweepDetected) == config.weightSweepDetected
    ensures Weight(config, ReclaimConfirmed) == config.weightReclaimConfirmed
    ensures Weight(config, CvdBullishDivergence) == Weight(config, CvdBearishDivergence) == config.weightCvdDivergence
    ensures Weight(config, TfiImpulse) == config.weightTfiImpulse
    ensures Weight(config, ForceOrderSpike) == config.weightForceOrderSpike
    ensures Weight(config, RegimeSpecial) == config.weightRegimeSpecial
    ensures Weight(config, EmaTrendAlignment) == config.weightEmaTrendAlignment
    ensures Weight(config, FundingSupportive) == config.weightFundingSupportive
  {
  }

  lemma NoReasonsNoScore(config: SignalConfig)
    ensures SumBy([], WeightOf(config)) == 0.0
  {
  }

  /** Adds one reason and its weight when the reason holds. */
  method CreditIf(config: SignalConfig, score: real, reasons: seq<Reason>, holds: bool, weight: real, reason: Reason)
    returns (score': real, reasons': seq<Reason>)
    requires score == SumBy(reasons, WeightOf(config)) && weight == Weight(config, reason)
    ensures reasons' == Extend(reasons, holds, reason)
    ensures score' == SumBy(reasons', WeightOf(config))
  {
    score', reasons' := score, reasons;
    if holds {
      Credited(config, reasons, reason);
      score', reasons' := score + weight, reasons + [reason];
    }
  }

  /** Nothing but the reason for being blocked is known. */
  function Unresolved(blockedBy: BlockedBy): SignalDiagnostics {
    SignalDiagnostics(Some(blockedBy), None, None, None, [])
  }

  /** A direction is settled: the whitelist and the confluence minimum decide. */
  function Judged(config: SignalConfig, f: Features, regime: Regime, direction: Direction,
                  minimum: real, weak: BlockedBy, prefix: seq<Reason>): SignalDiagnostics {
    if !IsDirectionAllowed(config, direction, regime) then
      SignalDiagnostics(Some(RegimeDirectionWhitelist), Some(direction), Some(false), None, [])
    else
      var score := Confluence(config, f, regime, direction);
      SignalDiagnostics(if score < minimum then Some(weak) else None, Some(direction), Some(true), Some(score),
                        prefix + Reasons(config, f, regime, direction))
  }

  function Diagnosed(config: SignalConfig, f: Features, regime: Regime): SignalDiagnostics {
    if !f.sweepDetected then Unresolved(NoSweep)
    else if f.sweepLevel.None? then Unresolved(MissingSweepLevel)
    else if IsUptrendPullbackContext(config, f, regime) then
      match InferUptrendPullbackDirection(config, f)
      case None => Unresolved(UptrendPullbackWeak)
      case Some(d) => Judged(config, f, regime, d, config.uptrendPullbackConfluenceMin, UptrendPullbackWeak,
                             [UptrendPullbackEntry])
    else if TooShallow(config, f) then Unresolved(SweepTooShallow)
    else if f.reclaimDetected then
      match InferDirection(config, f)
      case None => Unresolved(DirectionUnresolved)
      case Some(d) => Judged(config, f, regime, d, config.confluenceMin, ConfluenceBelowMin, [])
    else if regime.Uptrend? then
      match InferUptrendContinuationDirection(config, f)
      case None => Unresolved(UptrendContinuationWeak)
      case Some(d) => Judged(config, f, regime, d, config.confluenceMin, ConfluenceBelowMin, [])
    else Unresolved(NoReclaim)
  }

  method Diagnose(config: SignalConfig, f: Features, regime: Regime) returns (diagnostics: SignalDiagnostics)
    ensures diagnostics == Diagnosed(config, f, regime)
  {
    hide Reasons, WeightOf, SumBy;
    var direction: Option<Direction> := None;
    var directionAllowed: Option<bool> := None;
    var confluencePreview: Option<real> := None;
    var reasonsPreview: seq<Reason> := [];
    var blockedBy: Option<BlockedBy> := None;

    if !f.sweepDetected {
      blockedBy := Some(NoSweep);
    } else if f.sweepLevel.None? {
      blockedBy := Some(MissingSweepLevel);
    } else if IsUptrendPullbackContext(config, f, regime) {
      direction := InferUptrendPullbackDirection(config, f);
      blockedBy := if direction.None? then Some(UptrendPullbackWeak) else None;
      if direction.Some? {
        directionAllowed := Some(IsDirectionAllowed(config, direction.value, regime));
        if directionAllowed == Some(false) {
          blockedBy := Some(RegimeDirectionWhitelist);
        } else {
          var score, reasons := ConfluenceScore(config, f, regime, direction.value);
          confluencePreview := Some(score);
          reasonsPreview := [UptrendPullbackEntry] + reasons;
          if score < config.uptrendPullbackConfluenceMin {
            blockedBy := Some(UptrendPullbackWeak);
          }
        }
      }
    } else if TooShallow(config, f) {
      blockedBy := Some(SweepTooShallow);
    } else {
      var continuationBlockedBy: Option<BlockedBy> := None;
      if regime.Uptrend? && !f.reclaimDetected {
        direction := InferUptrendContinuationDirection(config, f);
        continuationBlockedBy := if direction.None? then Some(UptrendContinuationWeak) else None;
      }
      if direction.None? {
        if !f.reclaimDetected {
          blockedBy := if continuationBlockedBy.Some? then continuationBlockedBy else Some(NoReclaim);
        } else {
          direction := InferDirection(config, f);
          if direction.None? {
            blockedBy := Some(DirectionUnresolved);
          }
        }
      }
      if direction.Some? {
        directionAllowed := Some(IsDirectionAllowed(config, direction.value, regime));
        if directionAllowed == Some(false) {
          blockedBy := Some(RegimeDirectionWhitelist);
        } else {
          var score, reasons := ConfluenceScore(config, f, regime, direction.value);
          confluencePreview := Some(score);
          reasonsPreview := reasons;
          if score < config.confluenceMin {
            blockedBy := Some(ConfluenceBelowMin);
          }
        }
      }
    }
    diagnostics := SignalDiagnostics(blockedBy, direction, directionAllowed, confluencePreview, reasonsPreview);
  }

  datatype Levels = Levels(entry: real, invalidation: real, tp1: real, tp2: real)

  function StopDistance(entry: real, rawInvalidation: real, minStopDistancePct: real): real {
    Max(Abs(entry - rawInvalidation), Abs(entry) * minStopDistancePct)
  }

  lemma StopDistanceAtLeast(entry: real, rawInvalidation: real, minStopDistancePct: real)
    requires minStopDistancePct >= 0.0
    ensures StopDistance(entry, rawInvalidation, minStopDistancePct) >= Abs(entry) * minStopDistancePct >= 0.0
  {
    ProductNonNegative(Abs(entry), minStopDistancePct);
  }

  function BuildLevels(config: SignalConfig, f: Features, direction: Direction): Levels {
    var atr := Max(f.atr15m, TINY);
    var level := if f.sweepLevel.Some? then f.sweepLevel.value else 0.0;
    var base := if level == 0.0 then Max(f.ema50, 1.0) else level;
    var minStopDistancePct := Max(config.minStopDistancePct, 0.0);
    if direction.Long? then
      var entry := base + Times(atr, config.entryOffsetAtr);
      var rawInvalidation := base - Times(atr, config.invalidationOffsetAtr);
      var distance := StopDistance(entry, rawInvalidation, minStopDistancePct);
      Levels(entry, entry - distance, entry + Times(atr, config.tp1AtrMult), entry + Times(atr, config.tp2AtrMult))
    else
      var entry := base - Times(atr, config.entryOffsetAtr);
      var rawInvalidation := base + Times(atr, config.invalidationOffsetAtr);
      var distance := StopDistance(entry, rawInvalidation, minStopDistancePct);
      Levels(entry, entry + distance, entry - Times(atr, config.tp1AtrMult), entry - Times(atr, config.tp2AtrMult))
  }

  /** Levels in plain terms, from the swept level, or the slower average where that is missing or zero. The stop
      stands at the configured offset behind that base or at the least distance from the entry, whichever is
      further from the entry; the targets lie the configured multiples of the range ahead of it. */
  lemma LevelsInPlainTerms(config: SignalConfig, f: Features, d: Direction)
    ensures var atr := if f.atr15m < 0.00000001 then 0.00000001 else f.atr15m;
            var base := if f.sweepLevel.Some? && f.sweepLevel.value != 0.0 then f.sweepLevel.value
                        else if f.ema50 < 1.0 then 1.0 else f.ema50;
            var least := if config.minStopDistancePct < 0.0 then 0.0 else config.minStopDistancePct;
            var l := BuildLevels(config, f, d);
            && l.entry == base + d.Signed(Times(atr, config.entryOffsetAtr))
            && l.tp1 == l.entry + d.Signed(Times(atr, config.tp1AtrMult))
            && l.tp2 == l.entry + d.Signed(Times(atr, config.tp2AtrMult))
            && FurtherOf(d.Signed(l.entry - l.invalidation),
                         Size(l.entry - (base - d.Signed(Times(atr, config.invalidationOffsetAtr)))),
                         Times(Size(l.entry), least))
  {
    hide StopDistance, FurtherOf, Size, Times;
    LevelsOf(config, f, d);
    hide BuildLevels;
    var atr, l := Max(f.atr15m, TINY), BuildLevels(config, f, d);
    var level := if f.sweepLevel.Some? then f.sweepLevel.value else 0.0;
    var base := if level == 0.0 then Max(f.ema50, 1.0) else level;
    var raw := base - d.Signed(Times(atr, config.invalidationOffsetAtr));
    StopIsFurther(l.entry, raw, Max(config.minStopDistancePct, 0.0));
  }

  lemma LevelsOf(config: SignalConfig, f: Features, d: Direction)
    ensures var atr, l := Max(f.atr15m, TINY), BuildLevels(config, f, d);
            var level := if f.sweepLevel.Some? then f.sweepLevel.value else 0.0;
            var base := if level == 0.0 then Max(f.ema50, 1.0) else level;
            var raw := base - d.Signed(Times(atr, config.invalidationOffsetAtr));
            && l.entry == base + d.Signed(Times(atr, config.entryOffsetAtr))
            && l.tp1 == l.entry + d.Signed(Times(atr, config.tp1AtrMult))
            && l.tp2 == l.entry + d.Signed(Times(atr, config.tp2AtrMult))
            && d.Signed(l.entry - l.invalidation) == StopDistance(l.entry, raw, Max(config.minStopDistancePct, 0.0))
  {
    hide StopDistance, Times;
    var p := Times(Max(f.atr15m, TINY), config.invalidationOffsetAtr);
    var level := if f.sweepLevel.Some? then f.sweepLevel.value else 0.0;
    var base := if level == 0.0 then Max(f.ema50, 1.0) else level;
    assert d.Short? ==> base - d.Signed(p) == base + p;
  }

  lemma StopIsFurther(entry: real, raw: real, least: real)
    ensures FurtherOf(StopDistance(entry, raw, least), Size(entry - raw), Times(Size(entry), least))
  {
  }

  function Size(x: real): real {
    if x < 0.0 then -x else x
  }

  /** The distance is the greater of the two. */
  predicate FurtherOf(distance: real, a: real, b: real) {
    distance >= a && distance >= b && (distance == a || distance == b)
  }

  /** When a feature speaks for a direction. */
  predicate Speaks(config: SignalConfig, f: Features, regime: Regime, d: Direction, r: Reason) {
    match r
    case LiquiditySweepDetected => f.sweepDetected
    case ReclaimConfirmed => f.reclaimDetected
    case CvdBullishDivergence => d == Long && f.cvdBullishDivergence
    case CvdBearishDivergence => d == Short && f.cvdBearishDivergence
    case TfiImpulse => (if d == Long then f.tfi60s else -f.tfi60s) >= config.tfiImpulseThreshold
    case ForceOrderSpike => f.forceOrderSpike
    case RegimeSpecial =>
      (d == Long && regime == PostLiquidation) || (d == Short && (regime == Downtrend || regime == CrowdedLeverage))
    case EmaTrendAlignment => if d == Long then f.ema50 >= f.ema200 else f.ema50 <= f.ema200
    case FundingSupportive => if d == Long then f.funding8h <= 0.0 else f.funding8h >= 0.0
    case _ => false
  }

  /** The reasons counted are exactly those that speak for the direction, each once. */
  lemma ReasonsInPlainTerms(config: SignalConfig, f: Features, regime: Regime, d: Direction, r: Reason)
    ensures CountOf(Reasons(config, f, regime, d), r) == if Speaks(config, f, regime, d, r) then 1 else 0
  {
    CountsAsListed(config, f, regime, d, r);
    hide Reasons, CountOf;
  }

  function Once(holds: bool, reason: Reason, r: Reason): nat {
    if holds && r == reason then 1 else 0
  }

  lemma CountsAsListed(config: SignalConfig, f: Features, regime: Regime, d: Direction, r: Reason)
    ensures CountOf(Reasons(config, f, regime, d), r)
         == Once(f.sweepDetected, LiquiditySweepDetected, r)
            + Once(f.reclaimDetected, ReclaimConfirmed, r)
            + Once(d == Long && f.cvdBullishDivergence, CvdBullishDivergence, r)
            + Once(d == Short && f.cvdBearishDivergence, CvdBearishDivergence, r)
            + Once(d == Long && f.tfi60s >= config.tfiImpulseThreshold, TfiImpulse, r)
            + Once(d == Short && f.tfi60s <= -config.tfiImpulseThreshold, TfiImpulse, r)
            + Once(f.forceOrderSpike, ForceOrderSpike, r)
            + Once(IsRegimeSpecialSupportive(d, regime), RegimeSpecial, r)
            + Once(d == Long && f.ema50 >= f.ema200, EmaTrendAlignment, r)
            + Once(d == Short && f.ema50 <= f.ema200, EmaTrendAlignment, r)
            + Once(d == Long && f.funding8h <= 0.0, FundingSupportive, r)
            + Once(d == Short && f.funding8h >= 0.0, FundingSupportive, r)
  {
    hide Extend, CountOf, Once, IsRegimeSpecialSupportive;
    NothingCounts(r);
    var r1 := Extend([], f.sweepDetected, LiquiditySweepDetected);
    Extended([], f.sweepDetected, LiquiditySweepDetected, r);
    var r2 := Extend(r1, f.reclaimDetected, ReclaimConfirmed);
    Extended(r1, f.reclaimDetected, ReclaimConfirmed, r);
    var r3 := Extend(r2, d == Long && f.cvdBullishDivergence, CvdBullishDivergence);
    Extended(r2, d == Long && f.cvdBullishDivergence, CvdBullishDivergence, r);
    var r4 := Extend(r3, d == Short && f.cvdBearishDivergence, CvdBearishDivergence);
    Extended(r3, d == Short && f.cvdBearishDivergence, CvdBearishDivergence, r);
    var r5 := Extend(r4, d == Long && f.tfi60s >= config.tfiImpulseThreshold, TfiImpulse);
    Extended(r4, d == Long && f.tfi60s >= config.tfiImpulseThreshold, TfiImpulse, r);
    var r6 := Extend(r5, d == Short && f.tfi60s <= -config.tfiImpulseThreshold, TfiImpulse);
    Extended(r5, d == Short && f.tfi60s <= -config.tfiImpulseThreshold, TfiImpulse, r);
    var r7 := Extend(r6, f.forceOrderSpike, ForceOrderSpike);
    Extended(r6, f.forceOrderSpike, ForceOrderSpike, r);
    var r8 := Extend(r7, IsRegimeSpecialSupportive(d, regime), RegimeSpecial);
    Extended(r7, IsRegimeSpecialSupportive(d, regime), RegimeSpecial, r);
    var r9 := Extend(r8, d == Long && f.ema50 >= f.ema200, EmaTrendAlignment);
    Extended(r8, d == Long && f.ema50 >= f.ema200, EmaTrendAlignment, r);
    var r10 := Extend(r9, d == Short && f.ema50 <= f.ema200, EmaTrendAlignment);
    Extended(r9, d == Short && f.ema50 <= f.ema200, EmaTrendAlignment, r);
    var r11 := Extend(r10, d == Long && f.funding8h <= 0.0, FundingSupportive);
    Extended(r10, d == Long && f.funding8h <= 0.0, FundingSupportive, r);
    var r12 := Extend(r11, d == Short && f.funding8h >= 0.0, FundingSupportive);
    Extended(r11, d == Short && f.funding8h >= 0.0, FundingSupportive, r);
  }

  function CountOf(reasons: seq<Reason>, r: Reason): nat {
    multiset(reasons)[r]
  }

  lemma NothingCounts(r: Reason)
    ensures CountOf([], r) == 0
  {
  }

  lemma Extended(reasons: seq<Reason>, holds: bool, reason: Reason, r: Reason)
    ensures CountOf(Extend(reasons, holds, reason), r) == CountOf(reasons, r) + Once(holds, reason, r)
  {
    assert multiset(reasons + [reason]) == multiset(reasons) + multiset{reason};
  }

  /** The runner replaces the identifier of the candidate before using it. */
  function Generate(config: SignalConfig, f: Features, regime: Regime,
                    contextEligible: Option<bool>): Option<SignalCandidate> {
    FromDiagnostics(config, f, regime, contextEligible, Diagnosed(config, f, regime))
  }

  function FromDiagnostics(config: SignalConfig, f: Features, regime: Regime, contextEligible: Option<bool>,
                           diagnostics: SignalDiagnostics)
    : Option<SignalCandidate>
  {
    if diagnostics.blockedBy.Some? || contextEligible == Some(false) then None
    else if diagnostics.directionInferred.None? || diagnostics.confluencePreview.None? then None
    else
      var direction := diagnostics.directionInferred.value;
      var levels := BuildLevels(config, f, direction);
      Some(SignalCandidate(
        0, f.timestamp, direction, levels.entry, levels.invalidation, levels.tp1, levels.tp2,
        diagnostics.confluencePreview.value, regime, diagnostics.candidateReasonsPreview, f.atr15m))
  }

  /** A candidate carries the time of the bar and puts its stop on the losing side of its entry. */
  predicate WellPlaced(candidate: SignalCandidate, now: int) {
    && candidate.timestamp == now
    && candidate.direction.Signed(candidate.entryReference - candidate.invalidationLevel) >= 0.0
  }

  /** Whatever the configuration, the stop is at least the configured fraction of the entry away
      and on the side where the trade loses. */
  lemma StopOnLosingSide(config: SignalConfig, f: Features, direction: Direction)
    ensures var levels := BuildLevels(config, f, direction);
            direction.Signed(levels.entry - levels.invalidation)
            >= Abs(levels.entry) * Max(config.minStopDistancePct, 0.0) >= 0.0
  {
    hide StopDistance;
    var atr := Max(f.atr15m, TINY);
    var level := if f.sweepLevel.Some? then f.sweepLevel.value else 0.0;
    var base := if level == 0.0 then Max(f.ema50, 1.0) else level;
    var entry := BuildLevels(config, f, direction).entry;
    var raw :=
      if direction.Long? then base - atr * config.invalidationOffsetAtr
      else base + atr * config.invalidationOffsetAtr;
    StopDistanceAtLeast(entry, raw, Max(config.minStopDistancePct, 0.0));
  }

  lemma GeneratedIsWellPlaced(config: SignalConfig, f: Features, regime: Regime, contextEligible: Option<bool>)
    requires Generate(config, f, regime, contextEligible).Some?
    ensures WellPlaced(Generate(config, f, regime, contextEligible).value, f.timestamp)
  {
    StopOnLosingSide(config, f, Generate(config, f, regime, contextEligible).value.direction);
  }

  // ---------------------------------------------------------------- the diagnosis in plain terms

  /** A reclaimed sweep of a low is bought, one of a high is sold, if the flow agrees: a divergence to that side
      only or, when the divergences do not decide, order flow beyond the threshold of that side. */
  lemma DirectionInPlainTerms(config: SignalConfig, f: Features)
    ensures var bull, bear := f.cvdBullishDivergence, f.cvdBearishDivergence;
            && (InferDirection(config, f) == Some(Long) <==>
                  && f.sweepSide == Some(Low)
                  && ((bull && !bear) || (bull == bear && f.tfi60s > config.directionTfiThreshold)))
            && (InferDirection(config, f) == Some(Short) <==>
                  && f.sweepSide == Some(High)
                  && ((bear && !bull)
                      || (bull == bear && f.tfi60s <= config.directionTfiThreshold
                          && f.tfi60s < config.directionTfiThresholdInverse)))
  {
  }

  /** A sweep of a high that is not reclaimed is bought in an uptrend whose averages are far enough apart, with the
      flow; a deep sweep of a low is bought in an uptrend with the flow as well. */
  lemma UptrendInPlainTerms(config: SignalConfig, f: Features)
    ensures f.ema200 > 0.0 ==>
              (InferUptrendContinuationDirection(config, f) == Some(Long) <==>
                 && f.sweepSide == Some(High) && f.tfi60s > config.directionTfiThreshold
                 && f.ema50 - f.ema200 > Times(config.emaTrendGapPct, f.ema200))
    ensures f.ema200 == 0.0 ==>
              (InferUptrendContinuationDirection(config, f) == Some(Long) <==>
                 f.sweepSide == Some(High) && f.tfi60s > config.directionTfiThreshold && config.emaTrendGapPct < 0.0)
    ensures InferUptrendContinuationDirection(config, f) != Some(Short)
    ensures InferUptrendPullbackDirection(config, f) == Some(Long) <==>
              && f.sweepSide == Some(Low) && f.tfi60s > config.uptrendPullbackTfiThreshold && f.ema50 > f.ema200
              && config.uptrendPullbackMinSweepDepthPct < if f.sweepDepthPct == None then 0.0 else f.sweepDepthPct.value
    ensures InferUptrendPullbackDirection(config, f) != Some(Short)
  {
    if f.ema200 > 0.0 {
      QuotientAgainst(f.ema50 - f.ema200, f.ema200, config.emaTrendGapPct);
    }
    hide Times;
  }

  /** What blocks a bar, in the order in which it is found out; nothing else does. */
  lemma BlocksInPlainTerms(config: SignalConfig, f: Features, regime: Regime)
    ensures var blocked := Diagnosed(config, f, regime).blockedBy;
            var level := f.sweepDetected && f.sweepLevel != None;
            var pullback := level && config.allowUptrendPullback && regime == Uptrend && !f.reclaimDetected
                            && f.sweepSide == Some(Low);
            var shallow := f.sweepDepthPct != None && f.sweepDepthPct.value < config.minSweepDepthPct;
            var deep := level && !pullback && !shallow;
            && (blocked == Some(NoSweep) <==> !f.sweepDetected)
            && (blocked == Some(MissingSweepLevel) <==> f.sweepDetected && f.sweepLevel == None)
            && (blocked == Some(SweepTooShallow) <==> level && !pullback && shallow)
            && (blocked == Some(NoReclaim) <==> deep && !f.reclaimDetected && regime != Uptrend)
            && (blocked == Some(UptrendContinuationWeak) <==>
                  && deep && !f.reclaimDetected && regime == Uptrend
                  && InferUptrendContinuationDirection(config, f) == None)
            && (blocked == Some(DirectionUnresolved) <==>
                  deep && f.reclaimDetected && InferDirection(config, f) == None)
  {
    hide Confluence, Reasons, InferDirection, InferUptrendContinuationDirection, InferUptrendPullbackDirection;
    hide IsDirectionAllowed;
  }

  /** Past these a direction is settled, and it is blocked exactly when the whitelist of the regime does not hold it or
      the score of its reasons is below the minimum. */
  lemma VerdictInPlainTerms(config: SignalConfig, f: Features, regime: Regime)
    ensures var g := Diagnosed(config, f, regime);
            g.directionInferred.Some? ==>
              var d := g.directionInferred.value;
              var listed := regime in config.regimeDirectionWhitelist && d in config.regimeDirectionWhitelist[regime];
              var pullback := config.allowUptrendPullback && regime == Uptrend && !f.reclaimDetected
                              && f.sweepSide == Some(Low);
              var minimum := if pullback then config.uptrendPullbackConfluenceMin else config.confluenceMin;
              && g.directionAllowed == Some(listed)
              && (g.blockedBy == Some(RegimeDirectionWhitelist) <==> !listed)
              && (listed ==> g.confluencePreview == Some(Confluence(config, f, regime, d)))
              && (g.blockedBy == None <==> listed && Confluence(config, f, regime, d) >= minimum)
              && (listed ==>
                    g.candidateReasonsPreview
                    == (if pullback then [UptrendPullbackEntry] else []) + Reasons(config, f, regime, d))
  {
    hide Confluence, Reasons, InferDirection, InferUptrendContinuationDirection, InferUptrendPullbackDirection;
  }

  /** A candidate is generated exactly when nothing blocks it and the context does not forbid it; it carries the levels
      and the score of its direction. */
  lemma GeneratedIff(config: SignalConfig, f: Features, regime: Regime, contextEligible: Option<bool>)
    ensures Generate(config, f, regime, contextEligible).Some?
       <==> Diagnosed(config, f, regime).blockedBy == None && contextEligible != Some(false)
    ensures var g, c := Diagnosed(config, f, regime), Generate(config, f, regime, contextEligible);
            c.Some? ==>
              && g.directionInferred == Some(c.value.direction) && g.confluencePreview == Some(c.value.confluenceScore)
              && c.value.reasons == g.candidateReasonsPreview && c.value.regime == regime
              && c.value.entryReference == BuildLevels(config, f, c.value.direction).entry
              && c.value.invalidationLevel == BuildLevels(config, f, c.value.direction).invalidation
              && c.value.tpReference1 == BuildLevels(config, f, c.value.direction).tp1
              && c.value.tpReference2 == BuildLevels(config, f, c.value.direction).tp2
              && c.value.atr15m == f.atr15m
  {
    hide Confluence, Reasons, BuildLevels, InferDirection, InferUptrendContinuationDirection;
    hide InferUptrendPullbackDirection, IsDirectionAllowed;
  }
}
