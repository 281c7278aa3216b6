/** Drawdown, loss streaks and the summary of a run (backtest/performance.py). */
module Performance {
  import opened Prelude
  import opened Models
  import opened RealArith
  import opened Sorting
  import Calendar

  function Clamp01(x: real): real {
    Min(Max(x, 0.0), 1.0)
  }

  /** Equity before the first and after every profit or loss. */
  function EquityCurve(start: real, pnls: seq<real>): seq<real> {
    if |pnls| == 0 then [start]
    else
      var init := EquityCurve(start, pnls[..|pnls| - 1]);
      init + [init[|init| - 1] + pnls[|pnls| - 1]]
  }

  function Fall(high: real, now: real): real
    requires high != 0.0
  {
    Clamp01((high - now) / high)
  }

  lemma GuardedFall(high: real, now: real)
    requires high >= TINY
    ensures Clamp01((high - now) / Max(high, TINY)) == Fall(high, now)
  {
    assert Max(high, TINY) == high;
  }

  /** The fall from point i to point j relative to point i, within [0, 1]. */
  function Drop(curve: seq<real>, i: nat, j: nat): real
    requires i <= j < |curve|
  {
    if curve[i] > 0.0 then Fall(curve[i], curve[j]) else 0.0
  }

  /** The worst fall to point j from one of the first n points. */
  function WorstAt(curve: seq<real>, j: nat, n: nat): real
    requires n <= j + 1 <= |curve|
  {
    if n == 0 then 0.0 else Max(WorstAt(curve, j, n - 1), Drop(curve, n - 1, j))
  }

  /** The worst fall between any two of the first m points, taken in time order. */
  function MaxDrawdown(curve: seq<real>, m: nat): real
    requires m <= |curve|
  {
    if m == 0 then 0.0 else Max(MaxDrawdown(curve, m - 1), WorstAt(curve, m - 1, m))
  }

  /** `MaxDrawdown` is the largest fall over all pairs i <= j. */
  lemma {:induction false} MaxDrawdownIsWorstPair(curve: seq<real>, m: nat)
    requires m <= |curve|
    ensures forall i, j | 0 <= i <= j < m :: Drop(curve, i, j) <= MaxDrawdown(curve, m)
    ensures MaxDrawdown(curve, m) == 0.0 || exists i, j | 0 <= i <= j < m :: MaxDrawdown(curve, m) == Drop(curve, i, j)
    ensures 0.0 <= MaxDrawdown(curve, m) <= 1.0
  {
    if m > 0 {
      MaxDrawdownIsWorstPair(curve, m - 1);
      WorstAtIsWorst(curve, m - 1, m);
    }
  }

  lemma {:induction false} WorstAtIsWorst(curve: seq<real>, j: nat, n: nat)
    requires n <= j + 1 <= |curve|
    ensures forall i | 0 <= i < n :: Drop(curve, i, j) <= WorstAt(curve, j, n)
    ensures WorstAt(curve, j, n) == 0.0 || exists i | 0 <= i < n :: WorstAt(curve, j, n) == Drop(curve, i, j)
    ensures 0.0 <= WorstAt(curve, j, n) <= 1.0
  {
    if n > 0 {
      WorstAtIsWorst(curve, j, n - 1);
    }
  }

  /** The peak is the only earlier point that matters, even when equity turns negative. */
  lemma FallFromPeakIsWorst(curve: seq<real>, j: nat, peak: nat)
    requires peak <= j < |curve| && curve[peak] > 0.0
    requires forall i | 0 <= i <= j :: curve[i] <= curve[peak]
    ensures WorstAt(curve, j, j + 1) == Drop(curve, peak, j)
  {
    WorstAtIsWorst(curve, j, j + 1);
    forall i | 0 <= i <= j ensures Drop(curve, i, j) <= Drop(curve, peak, j) {
      if curve[i] > 0.0 {
        var low, high, now := curve[i], curve[peak], curve[j];
        QuotientTimes(low - now, low);
        QuotientTimes(high - now, high);
        FallGrowsWithHeight(low, high, now, (low - now) / low, (high - now) / high);
      }
    }
  }

  lemma FallGrowsWithHeight(low: real, high: real, now: real, a: real, b: real)
    requires 0.0 < low <= high
    requires Times(a, low) == low - now && Times(b, high) == high - now
    ensures a <= b || b >= 1.0
  {
    hide Times;
    if b < a && b < 1.0 {
      TimesStrict(b, a, low);
      TimesRest(low, high, b);
    }
  }

  lemma {:induction false} CurveLength(start: real, pnls: seq<real>)
    ensures |EquityCurve(start, pnls)| == |pnls| + 1
    ensures EquityCurve(start, pnls)[0] == start
  {
    if |pnls| > 0 {
      CurveLength(start, pnls[..|pnls| - 1]);
    }
  }

  lemma {:induction false} CurvePrefix(start: real, pnls: seq<real>, n: nat)
    requires n <= |pnls|
    ensures |EquityCurve(start, pnls)| == |pnls| + 1
    ensures EquityCurve(start, pnls[..n]) == EquityCurve(start, pnls)[..n + 1]
  {
    CurveLength(start, pnls);
    if n < |pnls| {
      var init := pnls[..|pnls| - 1];
      CurvePrefix(start, init, n);
      assert init[..n] == pnls[..n];
    } else {
      assert pnls[..n] == pnls;
    }
  }

  lemma {:induction false} CurveEnd(start: real, pnls: seq<real>)
    ensures |EquityCurve(start, pnls)| == |pnls| + 1
    ensures EquityCurve(start, pnls)[|pnls|] == start + SumBy(pnls, Identity())
  {
    if |pnls| > 0 {
      CurveEnd(start, pnls[..|pnls| - 1]);
    }
  }

  function Identity(): real -> real {
    (x: real) => x
  }

  lemma {:induction false} MaxDrawdownOfPrefix(curve: seq<real>, curve': seq<real>, m: nat)
    requires m <= |curve| && m <= |curve'| && curve[..m] == curve'[..m]
    ensures MaxDrawdown(curve, m) == MaxDrawdown(curve', m)
  {
    if m > 0 {
      assert curve[..m - 1] == curve[..m][..m - 1] == curve'[..m][..m - 1] == curve'[..m - 1];
      MaxDrawdownOfPrefix(curve, curve', m - 1);
      WorstAtOfPrefix(curve, curve', m - 1, m);
    }
  }

  lemma {:induction false} WorstAtOfPrefix(curve: seq<real>, curve': seq<real>, j: nat, n: nat)
    requires n <= j + 1 <= |curve| && j < |curve'| && curve[..j + 1] == curve'[..j + 1]
    ensures WorstAt(curve, j, n) == WorstAt(curve', j, n)
  {
    if n > 0 {
      WorstAtOfPrefix(curve, curve', j, n - 1);
      assert curve[n - 1] == curve[..j + 1][n - 1] == curve'[n - 1];
      assert curve[j] == curve[..j + 1][j] == curve'[j];
    }
  }

  /** The drawdown of a run that starts at `start` and books `pnls` in order. */
  function DrawdownOf(start: real, pnls: seq<real>): real
    ensures 0.0 <= DrawdownOf(start, pnls) <= 1.0
  {
    CurveLength(start, pnls);
    MaxDrawdownIsWorstPair(EquityCurve(start, pnls), |pnls| + 1);
    MaxDrawdown(EquityCurve(start, pnls), |pnls| + 1)
  }

  /** One more result adds the fall to the new end, measured from the worst earlier point. */
  lemma DrawdownGrows(start: real, pnls: seq<real>, pnl: real)
    ensures |EquityCurve(start, pnls + [pnl])| == |pnls| + 2
    ensures DrawdownOf(start, pnls + [pnl])
         == Max(DrawdownOf(start, pnls), WorstAt(EquityCurve(start, pnls + [pnl]), |pnls| + 1, |pnls| + 2))
  {
    hide WorstAt;
    var n, all := |pnls|, pnls + [pnl];
    CurveLength(start, all);
    CurvePrefix(start, all, n);
    assert all[..n] == pnls;
    CurveLength(start, pnls);
    MaxDrawdownOfPrefix(EquityCurve(start, pnls), EquityCurve(start, all), n + 1);
  }

  /** The one-pass state after booking `pnls`: current equity, running peak, worst fall so far. */
  ghost predicate Tracks(start: real, pnls: seq<real>, equity: real, peak: real, maxDd: real) {
    CurveLength(start, pnls);
    var curve := EquityCurve(start, pnls);
    && equity == curve[|pnls|]
    && IsPeak(curve, |pnls| + 1, peak)
    && maxDd >= 0.0
    && Clamp01(maxDd) == DrawdownOf(start, pnls)
  }

  ghost predicate IsPeak(curve: seq<real>, n: nat, peak: real)
    requires n <= |curve|
  {
    && (exists p | 0 <= p < n :: curve[p] == peak)
    && (forall i | 0 <= i < n :: curve[i] <= peak)
  }

  lemma TracksStart(start: real)
    requires start > 0.0
    ensures Tracks(start, [], start, start, 0.0)
  {
    assert EquityCurve(start, []) == [start];
    assert WorstAt([start], 0, 1) == Max(WorstAt([start], 0, 0), Drop([start], 0, 0));
    assert MaxDrawdown([start], 1) == Max(MaxDrawdown([start], 0), WorstAt([start], 0, 1));
  }

  lemma PeakStep(curve: seq<real>, n: nat, peak: real)
    requires 0 < n < |curve| && IsPeak(curve, n, peak) && curve[0] >= TINY
    ensures var peak' := if curve[n] > peak then curve[n] else peak;
            IsPeak(curve, n + 1, peak') && peak' >= TINY
            && WorstAt(curve, n, n + 1) == Fall(peak', curve[n])
  {
    var peak' := if curve[n] > peak then curve[n] else peak;
    var q := PeakGrows(curve, n, peak);
    hide WorstAt, Fall, Drop, IsPeak;
    FallFromPeakIsWorst(curve, n, q);
    DropFromPositive(curve, q, n);
  }

  /** The peak after one more point, and where it stands. */
  lemma PeakGrows(curve: seq<real>, n: nat, peak: real) returns (q: nat)
    requires 0 < n < |curve| && IsPeak(curve, n, peak)
    ensures var peak' := if curve[n] > peak then curve[n] else peak;
            q <= n && curve[q] == peak' >= curve[0] && IsPeak(curve, n + 1, peak')
    ensures forall i | 0 <= i <= n :: curve[i] <= curve[q]
  {
    var p: nat :| p < n && curve[p] == peak;
    q := if curve[n] > peak then n else p;
    assert peak >= curve[0];
  }

  lemma DropFromPositive(curve: seq<real>, i: nat, j: nat)
    requires i <= j < |curve| && curve[i] > 0.0
    ensures Drop(curve, i, j) == Fall(curve[i], curve[j])
  {
  }

  /** Booking one more result keeps the one-pass state in step with the all-pairs definition. */
  lemma TracksStep(start: real, pnls: seq<real>, pnl: real, equity: real, peak: real, maxDd: real)
    requires start >= TINY
    requires Tracks(start, pnls, equity, peak, maxDd)
    ensures var equity' := equity + pnl;
            var peak' := if equity' > peak then equity' else peak;
            var fall := (peak' - equity') / Max(peak', TINY);
            Tracks(start, pnls + [pnl], equity', peak', if fall > maxDd then fall else maxDd)
  {
    hide WorstAt, MaxDrawdown, DrawdownOf, Fall;
    var n, all := |pnls|, pnls + [pnl];
    CurveLength(start, pnls);
    CurveLength(start, all);
    CurvePrefix(start, all, n);
    assert all[..n] == pnls;
    var curve := EquityCurve(start, all);
    assert curve[n + 1] == equity + pnl;
    assert IsPeak(curve, n + 1, peak) by {
      assert forall i | 0 <= i <= n :: curve[i] == curve[..n + 1][i];
    }
    PeakStep(curve, n + 1, peak);
    GuardedFall(if curve[n + 1] > peak then curve[n + 1] else peak, curve[n + 1]);
    DrawdownGrows(start, pnls, pnl);
  }

  method MaxDrawdownPct(pnlValues: seq<real>, initialEquity: real) returns (drawdownPct: real)
    requires initialEquity >= TINY
    ensures drawdownPct == DrawdownOf(initialEquity, pnlValues)
  {
    var peak := initialEquity;
    var equity := initialEquity;
    var maxDd := 0.0;
    TracksStart(initialEquity);
    for i := 0 to |pnlValues|
      invariant Tracks(initialEquity, pnlValues[..i], equity, peak, maxDd)
    {
      TracksStep(initialEquity, pnlValues[..i], pnlValues[i], equity, peak, maxDd);
      assert pnlValues[..i + 1] == pnlValues[..i] + [pnlValues[i]];
      equity := equity + pnlValues[i];
      if equity > peak {
        peak := equity;
      }
      var drawdown := (peak - equity) / Max(peak, TINY);
      if drawdown > maxDd {
        maxDd := drawdown;
      }
    }
    assert pnlValues[..|pnlValues|] == pnlValues;
    drawdownPct := Min(Max(maxDd, 0.0), 1.0);
  }

  /** Losing results among pnls[i..j]. */
  function LossesIn(pnls: seq<real>, i: nat, j: nat): nat
    requires i <= j <= |pnls|
    decreases j
  {
    if i == j then 0 else LossesIn(pnls, i, j - 1) + (if pnls[j - 1] < 0.0 then 1 else 0)
  }

  predicate NoWin(pnls: seq<real>, i: nat, j: nat)
    requires i <= j <= |pnls|
  {
    forall k | i <= k < j :: pnls[k] <= 0.0
  }

  lemma {:induction false} LossesShrink(pnls: seq<real>, i: nat, i': nat, j: nat)
    requires i <= i' <= j <= |pnls|
    ensures LossesIn(pnls, i', j) <= LossesIn(pnls, i, j)
    decreases j
  {
    if i' < j {
      LossesShrink(pnls, i, i', j - 1);
    }
  }

  /** No window of the first n results free of wins holds more than `bound` losses. */
  ghost predicate StreaksWithin(pnls: seq<real>, n: nat, bound: int)
    requires n <= |pnls|
  {
    forall i, j | 0 <= i <= j <= n && NoWin(pnls, i, j) :: LossesIn(pnls, i, j) <= bound
  }

  /** Some window free of wins holds this many losses, and none holds more. */
  ghost predicate IsLongestStreak(pnls: seq<real>, losses: nat) {
    && StreaksWithin(pnls, |pnls|, losses)
    && exists i, j | 0 <= i <= j <= |pnls| :: NoWin(pnls, i, j) && LossesIn(pnls, i, j) == losses
  }

  lemma StreaksGrow(pnls: seq<real>, n: nat, from: nat, bound: int, bound': int)
    requires n < |pnls| && from <= n + 1
    requires StreaksWithin(pnls, n, bound) && 0 <= bound <= bound'
    requires from > 0 ==> pnls[from - 1] > 0.0
    requires LossesIn(pnls, from, n + 1) <= bound'
    ensures StreaksWithin(pnls, n + 1, bound')
  {
    forall i, j | 0 <= i <= j <= n + 1 && NoWin(pnls, i, j) ensures LossesIn(pnls, i, j) <= bound' {
      if j == n + 1 && i < j {
        assert from <= i;
        LossesShrink(pnls, from, i, j);
      }
    }
  }

  /** The longest run of losses that no win interrupts; flat results neither count nor interrupt. */
  method MaxConsecutiveLosses(pnls: seq<real>) returns (maxLosses: nat)
    ensures IsLongestStreak(pnls, maxLosses)
  {
    maxLosses := 0;
    var current := 0;
    ghost var from, bestFrom, bestTo := 0, 0, 0;
    for k := 0 to |pnls|
      invariant from <= k && NoWin(pnls, from, k) && (from > 0 ==> pnls[from - 1] > 0.0)
      invariant current == LossesIn(pnls, from, k) <= maxLosses
      invariant bestFrom <= bestTo <= k && NoWin(pnls, bestFrom, bestTo)
                && maxLosses == LossesIn(pnls, bestFrom, bestTo)
      invariant StreaksWithin(pnls, k, maxLosses)
    {
      ghost var bound := maxLosses;
      if pnls[k] < 0.0 {
        current := current + 1;
        if current > maxLosses {
          maxLosses := current;
          bestFrom, bestTo := from, k + 1;
        }
      } else if pnls[k] > 0.0 {
        current := 0;
        from := k + 1;
      }
      StreaksGrow(pnls, k, from, bound, maxLosses);
    }
  }

  // ---------------------------------------------------------------- summary of a run

  /** A profit factor is infinite when there are winners and no losers. */
  datatype ProfitFactor = Finite(ratio: real) | Infinite

  datatype PerformanceReport = PerformanceReport(
    tradesCount: nat,
    expectancyR: real,
    pnlAbs: real,
    pnlRSum: real,
    maxDrawdownPct: real,
    winRate: real,
    avgWinnerR: real,
    avgLoserR: real,
    profitFactor: ProfitFactor,
    maxConsecutiveLosses: nat,
    sharpe: Sharpe,
    totalFees: real)

  function Pnl(): TradeLog -> real {
    (t: TradeLog) => t.pnlAbs
  }

  function RMultiple(): TradeLog -> real {
    (t: TradeLog) => t.pnlR
  }

  function Fees(): TradeLog -> real {
    (t: TradeLog) => t.fees
  }

  function Won(): TradeLog -> real {
    (t: TradeLog) => if t.pnlAbs > 0.0 then t.pnlAbs else 0.0
  }

  function Lost(): TradeLog -> real {
    (t: TradeLog) => if t.pnlAbs < 0.0 then t.pnlAbs else 0.0
  }

  function Win(): TradeLog -> real {
    (t: TradeLog) => if t.pnlAbs > 0.0 then 1.0 else 0.0
  }

  /** The winners and losers by whom the average R multiples are taken: those on the same side of zero in both. */
  predicate WinsBoth(t: TradeLog) {
    t.pnlAbs > 0.0 && t.pnlR > 0.0
  }

  predicate LosesBoth(t: TradeLog) {
    t.pnlAbs < 0.0 && t.pnlR < 0.0
  }

  /** The average R multiple of the trades that meet a condition, zero when none does. */
  function AverageR(trades: seq<TradeLog>, p: TradeLog -> bool): real {
    var kept := Keep(trades, p);
    if |kept| == 0 then 0.0 else SumBy(kept, RMultiple()) / |kept| as real
  }

  lemma {:induction false} KeptSum(trades: seq<TradeLog>, p: TradeLog -> bool, f: TradeLog -> real)
    ensures SumBy(Keep(trades, p), f) == SumBy(trades, (t: TradeLog) => if p(t) then f(t) else 0.0)
  {
    if |trades| > 0 {
      var init, last := trades[..|trades| - 1], trades[|trades| - 1];
      KeptSum(init, p, f);
      SumBySnoc(Keep(init, p), last, f);
      assert Keep(init, p) + [] == Keep(init, p);
    }
  }

  lemma {:induction false} CountAsSum(trades: seq<TradeLog>)
    ensures SumBy(trades, (t: TradeLog) => 1.0) == |trades| as real
  {
    if |trades| > 0 {
      CountAsSum(trades[..|trades| - 1]);
    }
  }

  /** An average R multiple does not depend on the order of the trades. */
  lemma AverageRIgnoresOrder(a: seq<TradeLog>, b: seq<TradeLog>, p: TradeLog -> bool)
    requires multiset(a) == multiset(b)
    ensures AverageR(a, p) == AverageR(b, p)
  {
    hide Keep, SumBy;
    var one := (t: TradeLog) => 1.0;
    KeptSum(a, p, RMultiple());
    KeptSum(b, p, RMultiple());
    KeptSum(a, p, one);
    KeptSum(b, p, one);
    CountAsSum(Keep(a, p));
    CountAsSum(Keep(b, p));
    SumByPermutation(a, b, (t: TradeLog) => if p(t) then RMultiple()(t) else 0.0);
    SumByPermutation(a, b, (t: TradeLog) => if p(t) then one(t) else 0.0);
  }

  // ---------------------------------------------------------------- the daily Sharpe ratio

  /** Zero, or the mean over the root of the variance of the daily returns, times the root of 365; both
      are kept, since the roots are not exact. */
  datatype Sharpe = Zero | Ratio(mean: real, variance: real)

  function ClosedOn(day: int): TradeLog -> bool {
    (t: TradeLog) => Calendar.Date(t.closedAt) == day
  }

  function ClosedBefore(day: int): TradeLog -> bool {
    (t: TradeLog) => Calendar.Date(t.closedAt) < day
  }

  function DayPnl(trades: seq<TradeLog>, day: int): real {
    SumBy(Keep(trades, ClosedOn(day)), Pnl())
  }

  function PnlBefore(trades: seq<TradeLog>, day: int): real {
    SumBy(Keep(trades, ClosedBefore(day)), Pnl())
  }

  /** What a day made of the equity it began with. */
  function DayReturn(trades: seq<TradeLog>, initialEquity: real, day: int): real {
    DayPnl(trades, day) / Max(initialEquity + PnlBefore(trades, day), TINY)
  }

  function ReturnsOf(trades: seq<TradeLog>, initialEquity: real, days: seq<int>): seq<real> {
    seq(|days|, i requires 0 <= i < |days| => DayReturn(trades, initialEquity, days[i]))
  }

  function SharpeOf(daily: seq<real>): Sharpe {
    if |daily| < 2 then Zero
    else
      var mean := SumBy(daily, Identity()) / |daily| as real;
      var variance := SumBy(daily, (x: real) => (x - mean) * (x - mean)) / (|daily| - 1) as real;
      if variance == 0.0 then Zero else Ratio(mean, variance)
  }

  ghost predicate TradedOn(trades: seq<TradeLog>, day: int) {
    exists t | t in trades :: Calendar.Date(t.closedAt) == day
  }

  /** The dates on which some trade was closed, rising. */
  ghost predicate AreTradingDays(days: seq<int>, trades: seq<TradeLog>) {
    && (forall i, j | 0 <= i < j < |days| :: days[i] < days[j])
    && (forall day :: day in days <==> TradedOn(trades, day))
  }

  /** The ratio of the returns of the trading days, each on the equity left by all trades of earlier days. */
  ghost predicate IsDailySharpe(sharpe: Sharpe, trades: seq<TradeLog>, initialEquity: real) {
    exists days :: AreTradingDays(days, trades) && sharpe == SharpeOf(ReturnsOf(trades, initialEquity, days))
  }

  lemma DayPnlSnoc(trades: seq<TradeLog>, t: TradeLog, day: int)
    ensures DayPnl(trades + [t], day)
         == DayPnl(trades, day) + (if Calendar.Date(t.closedAt) == day then t.pnlAbs else 0.0)
  {
    hide Keep, SumBy;
    var kept := Keep(trades, ClosedOn(day));
    KeepSnoc(trades, t, ClosedOn(day));
    if Calendar.Date(t.closedAt) == day {
      SumBySnoc(kept, t, Pnl());
    } else {
      assert kept + [] == kept;
    }
  }

  lemma TradedOnSnoc(trades: seq<TradeLog>, t: TradeLog, day: int)
    ensures TradedOn(trades + [t], day) <==> TradedOn(trades, day) || Calendar.Date(t.closedAt) == day
  {
    if Calendar.Date(t.closedAt) == day {
      assert t in trades + [t];
    }
    if x :| x in trades && Calendar.Date(x.closedAt) == day {
      assert x in trades + [t];
    }
  }

  /** The days seen so far, each once, and what was made on each. */
  ghost predicate IsDaily(daily: map<int, real>, days: seq<int>, trades: seq<TradeLog>) {
    && (forall i, j | 0 <= i < j < |days| :: days[i] != days[j])
    && (forall day :: day in daily <==> day in days)
    && (forall day :: day in days <==> TradedOn(trades, day))
    && (forall day | day in daily :: daily[day] == DayPnl(trades, day))
  }

  lemma DailyGrows(daily: map<int, real>, days: seq<int>, trades: seq<TradeLog>, t: TradeLog)
    requires IsDaily(daily, days, trades)
    ensures var key := Calendar.Date(t.closedAt);
            IsDaily(daily[key := (if key in daily then daily[key] else 0.0) + t.pnlAbs],
                    if key in daily then days else days + [key], trades + [t])
  {
    hide DayPnl, TradedOn;
    var key := Calendar.Date(t.closedAt);
    var days' := if key in daily then days else days + [key];
    forall day ensures day in days' <==> TradedOn(trades + [t], day) {
      TradedOnSnoc(trades, t, day);
    }
    forall day | day in days' ensures DayPnl(trades + [t], day)
                                   == DayPnl(trades, day) + (if key == day then t.pnlAbs else 0.0) {
      DayPnlSnoc(trades, t, day);
    }
    if key !in daily {
      NothingOn(trades, key);
    }
  }

  lemma NothingOn(trades: seq<TradeLog>, day: int)
    requires !TradedOn(trades, day)
    ensures DayPnl(trades, day) == 0.0
  {
    KeepNone(trades, ClosedOn(day));
  }

  function NoLaterDay(a: int, b: int): bool {
    a <= b
  }

  lemma SortedDays(days: seq<int>, trades: seq<TradeLog>)
    requires forall i, j | 0 <= i < j < |days| :: days[i] != days[j]
    requires forall day :: day in days <==> TradedOn(trades, day)
    ensures AreTradingDays(StableSort(days, NoLaterDay), trades) && |StableSort(days, NoLaterDay)| == |days|
  {
    hide StableSort, TradedOn;
    SortIsSortedPermutation(days, NoLaterDay);
    SortLength(days, NoLaterDay);
    var sorted := StableSort(days, NoLaterDay);
    forall day ensures day in sorted <==> day in days {
      assert day in sorted <==> day in multiset(sorted);
      assert day in days <==> day in multiset(days);
    }
    forall i, j | 0 <= i < j < |sorted| ensures sorted[i] < sorted[j] {
      assert NoLaterDay(sorted[i], sorted[j]);
      if sorted[i] == sorted[j] {
        TwiceCounted(sorted, i, j);
        OnceCounted(days, sorted[i]);
      }
    }
  }

  lemma TwiceCounted(s: seq<int>, i: nat, j: nat)
    requires i < j < |s| && s[i] == s[j]
    ensures multiset(s)[s[i]] >= 2
  {
    assert s == s[..j] + [s[j]] + s[j + 1..];
    assert s[i] in multiset(s[..j]);
  }

  lemma {:induction false} OnceCounted(s: seq<int>, x: int)
    requires forall i, j | 0 <= i < j < |s| :: s[i] != s[j]
    ensures multiset(s)[x] <= 1
  {
    if |s| > 0 {
      var n := |s| - 1;
      OnceCounted(s[..n], x);
      assert s == s[..n] + [s[n]];
      if s[n] == x {
        assert x !in s[..n];
      }
    }
  }

  /** Between one trading day and the next nothing is made. */
  lemma NextDay(days: seq<int>, trades: seq<TradeLog>, k: nat)
    requires AreTradingDays(days, trades) && k < |days|
    ensures k == 0 ==> PnlBefore(trades, days[0]) == 0.0
    ensures k + 1 < |days| ==> PnlBefore(trades, days[k + 1]) == PnlBefore(trades, days[k]) + DayPnl(trades, days[k])
  {
    hide Keep, SumBy;
    forall t | t in trades ensures Calendar.Date(t.closedAt) in days {
      assert TradedOn(trades, Calendar.Date(t.closedAt));
    }
    if k == 0 {
      KeepNone(trades, ClosedBefore(days[0]));
      NothingSums();
    }
    if k + 1 < |days| {
      KeepDisjointSum(trades, ClosedBefore(days[k]), ClosedOn(days[k]), ClosedBefore(days[k + 1]), Pnl());
    }
  }

  lemma NothingSums()
    ensures SumBy([], Pnl()) == 0.0
  {
  }

  method DailySharpeRatio(trades: seq<TradeLog>, initialEquity: real) returns (sharpe: Sharpe)
    ensures IsDailySharpe(sharpe, trades, initialEquity)
  {
    hide DayPnl, PnlBefore, TradedOn, StableSort, SharpeOf, IsDaily;
    var daily: map<int, real>, days: seq<int> := map[], [];
    NoDays(daily, days);
    for i := 0 to |trades|
      invariant IsDaily(daily, days, trades[..i])
    {
      assert trades[..i + 1] == trades[..i] + [trades[i]];
      DailyGrows(daily, days, trades[..i], trades[i]);
      var key := Calendar.Date(trades[i].closedAt);
      days := if key in daily then days else days + [key];
      daily := daily[key := (if key in daily then daily[key] else 0.0) + trades[i].pnlAbs];
    }
    assert trades[..|trades|] == trades;
    var sorted := SortDays(daily, days, trades);
    if |sorted| > 0 {
      NextDay(sorted, trades, 0);
    }
    var equity, dailyReturns := initialEquity, [];
    for k := 0 to |sorted|
      invariant |dailyReturns| == k
      invariant forall j | 0 <= j < k :: dailyReturns[j] == DayReturn(trades, initialEquity, sorted[j])
      invariant k < |sorted| ==> equity == initialEquity + PnlBefore(trades, sorted[k])
    {
      NextDay(sorted, trades, k);
      var pnl := daily[sorted[k]];
      dailyReturns := dailyReturns + [pnl / Max(equity, TINY)];
      equity := equity + pnl;
    }
    assert dailyReturns == ReturnsOf(trades, initialEquity, sorted);
    sharpe := SharpeOf(dailyReturns);
  }

  function ClosedNoLater(a: TradeLog, b: TradeLog): bool {
    a.closedAt <= b.closedAt
  }

  function PnlValues(trades: seq<TradeLog>): seq<real> {
    seq(|trades|, i requires 0 <= i < |trades| => trades[i].pnlAbs)
  }

  function FactorOf(won: real, lostAbs: real): ProfitFactor {
    if lostAbs == 0.0 then (if won > 0.0 then Infinite else Finite(0.0)) else Finite(won / lostAbs)
  }

  lemma NoDays(daily: map<int, real>, days: seq<int>)
    requires daily == map[] && days == []
    ensures IsDaily(daily, days, [])
  {
  }

  method SortDays(daily: map<int, real>, days: seq<int>, trades: seq<TradeLog>) returns (sorted: seq<int>)
    requires IsDaily(daily, days, trades)
    ensures AreTradingDays(sorted, trades)
    ensures forall k | 0 <= k < |sorted| :: sorted[k] in daily && daily[sorted[k]] == DayPnl(trades, sorted[k])
  {
    hide DayPnl, TradedOn, StableSort;
    SortedDays(days, trades);
    sorted := StableSort(days, NoLaterDay);
    assert forall k | 0 <= k < |sorted| :: sorted[k] in sorted;
  }

  lemma NoSharpe(initialEquity: real)
    ensures IsDailySharpe(Zero, [], initialEquity)
  {
    assert AreTradingDays([], []);
  }

  /** The trading days are determined by the trades, and with them the ratio. */
  lemma DailySharpeIsUnique(a: Sharpe, b: Sharpe, trades: seq<TradeLog>, initialEquity: real)
    requires IsDailySharpe(a, trades, initialEquity) && IsDailySharpe(b, trades, initialEquity)
    ensures a == b
  {
    hide ReturnsOf, SharpeOf, TradedOn;
    var days :| AreTradingDays(days, trades) && a == SharpeOf(ReturnsOf(trades, initialEquity, days));
    var days' :| AreTradingDays(days', trades) && b == SharpeOf(ReturnsOf(trades, initialEquity, days'));
    RisingDaysAreUnique(days, days');
  }

  lemma SameEmptiness(a: seq<int>, b: seq<int>)
    requires forall x :: x in a <==> x in b
    ensures |a| == 0 <==> |b| == 0
  {
    if |a| > 0 {
      var x := a[0];
      assert x in a;
    }
    if |b| > 0 {
      var x := b[0];
      assert x in b;
    }
  }

  lemma {:induction false} RisingDaysAreUnique(a: seq<int>, b: seq<int>)
    requires forall i, j | 0 <= i < j < |a| :: a[i] < a[j]
    requires forall i, j | 0 <= i < j < |b| :: b[i] < b[j]
    requires forall x :: x in a <==> x in b
    ensures a == b
  {
    SameEmptiness(a, b);
    if |a| > 0 {
      var m, n := |a| - 1, |b| - 1;
      assert a[m] in b && b[n] in a;
      assert a[m] == b[n];
      forall x ensures x in a[..m] <==> x in b[..n] {
        if x in a[..m] {
          assert x in a;
        }
        if x in b[..n] {
          assert x in b;
        }
      }
      RisingDaysAreUnique(a[..m], b[..n]);
      assert a == a[..m] + [a[m]] && b == b[..n] + [b[n]];
    }
  }

  /** The summary speaks of the trades themselves, not of the order they are listed in, except for
      drawdown and streaks, which follow the order of closing. */
  method Summarize(trades: seq<TradeLog>, initialEquity: real) returns (report: PerformanceReport)
    ensures report.tradesCount == |trades|
    ensures report.pnlAbs == SumBy(trades, Pnl())
    ensures report.pnlRSum == SumBy(trades, RMultiple())
    ensures report.totalFees == SumBy(trades, Fees())
    ensures report.profitFactor == FactorOf(SumBy(trades, Won()), Abs(SumBy(trades, Lost())))
    ensures trades != [] ==> report.winRate == SumBy(trades, Win()) / |trades| as real
    ensures trades != [] ==> report.expectancyR == report.pnlRSum / |trades| as real
    ensures trades == [] ==> report.winRate == report.expectancyR == 0.0
    ensures report.avgWinnerR == AverageR(trades, WinsBoth) && report.avgLoserR == AverageR(trades, LosesBoth)
    ensures report.maxDrawdownPct == DrawdownOf(Max(initialEquity, TINY), PnlValues(StableSort(trades, ClosedNoLater)))
    ensures IsLongestStreak(PnlValues(StableSort(trades, ClosedNoLater)), report.maxConsecutiveLosses)
    ensures IsDailySharpe(report.sharpe, StableSort(trades, ClosedNoLater), Max(initialEquity, TINY))
  {
    hide IsDailySharpe;
    SortIsSortedPermutation(trades, ClosedNoLater);
    SortLength(trades, ClosedNoLater);
    if |trades| == 0 {
      ghost var none := PnlValues(StableSort(trades, ClosedNoLater));
      assert none == [] && NoWin(none, 0, 0) && LossesIn(none, 0, 0) == 0;
      NoDrawdown(Max(initialEquity, TINY));
      NoSharpe(Max(initialEquity, TINY));
      return PerformanceReport(0, 0.0, 0.0, 0.0, 0.0, 0.0, 0.0, 0.0, Finite(0.0), 0, Zero, 0.0);
    }
    var ordered := StableSort(trades, ClosedNoLater);
    SumByPermutation(ordered, trades, Pnl());
    SumByPermutation(ordered, trades, RMultiple());
    SumByPermutation(ordered, trades, Fees());
    SumByPermutation(ordered, trades, Won());
    SumByPermutation(ordered, trades, Lost());
    SumByPermutation(ordered, trades, Win());
    AverageRIgnoresOrder(ordered, trades, WinsBoth);
    AverageRIgnoresOrder(ordered, trades, LosesBoth);
    var pnlRSum := SumBy(ordered, RMultiple());
    var count := |ordered| as real;
    var streak := MaxConsecutiveLosses(PnlValues(ordered));
    var drawdown := MaxDrawdownPct(PnlValues(ordered), Max(initialEquity, TINY));
    var sharpe := DailySharpeRatio(ordered, Max(initialEquity, TINY));
    report := PerformanceReport(
      |ordered|, pnlRSum / count, SumBy(ordered, Pnl()), pnlRSum, drawdown, SumBy(ordered, Win()) / count,
      AverageR(ordered, WinsBoth), AverageR(ordered, LosesBoth),
      FactorOf(SumBy(ordered, Won()), Abs(SumBy(ordered, Lost()))), streak, sharpe, SumBy(ordered, Fees()));
  }

  lemma NoDrawdown(start: real)
    requires start > 0.0
    ensures DrawdownOf(start, []) == 0.0
  {
    TracksStart(start);
  }

  /** A run made money exactly when its profit factor exceeds one. */
  lemma ProfitFactorTellsSign(trades: seq<TradeLog>)
    ensures var factor := FactorOf(SumBy(trades, Won()), Abs(SumBy(trades, Lost())));
            SumBy(trades, Pnl()) > 0.0 <==> factor.Infinite? || factor.ratio > 1.0
  {
    SumByPlus(trades, Won(), Lost(), Pnl());
    SidesOfZero(trades);
    var won, lost := SumBy(trades, Won()), Abs(SumBy(trades, Lost()));
    if lost != 0.0 {
      QuotientAboveOne(won, lost);
    }
  }

  lemma {:induction false} SidesOfZero(trades: seq<TradeLog>)
    ensures SumBy(trades, Won()) >= 0.0 >= SumBy(trades, Lost())
  {
    if |trades| > 0 {
      SidesOfZero(trades[..|trades| - 1]);
    }
  }

  // ---------------------------------------------------------------- in plain terms

  /** An average, cleared of its division. */
  lemma AverageInPlainTerms(trades: seq<TradeLog>, p: TradeLog -> bool)
    ensures var kept := Keep(trades, p);
            && (|kept| > 0 ==> Times(AverageR(trades, p), |kept| as real) == SumBy(kept, RMultiple()))
            && (|kept| == 0 ==> AverageR(trades, p) == 0.0)
  {
    hide SumBy, Keep;
    var kept := Keep(trades, p);
    if |kept| > 0 {
      QuotientTimes(SumBy(kept, RMultiple()), |kept| as real);
    }
  }

  /** The profit factor, cleared of its division. */
  lemma FactorInPlainTerms(won: real, lostAbs: real)
    ensures lostAbs != 0.0 ==> FactorOf(won, lostAbs).Finite? && Times(FactorOf(won, lostAbs).ratio, lostAbs) == won
    ensures lostAbs == 0.0 ==> FactorOf(won, lostAbs) == if won > 0.0 then Infinite else Finite(0.0)
  {
    if lostAbs != 0.0 {
      QuotientTimes(won, lostAbs);
    }
  }

  /** What counts for whom: results above and below zero, flat ones for neither side. */
  lemma SidesInPlainTerms(t: TradeLog)
    ensures WinsBoth(t) <==> t.pnlAbs > 0.0 && t.pnlR > 0.0
    ensures LosesBoth(t) <==> 0.0 > t.pnlAbs && 0.0 > t.pnlR
    ensures Won()(t) == (if t.pnlAbs > 0.0 then t.pnlAbs else 0.0) && Win()(t) == (if t.pnlAbs > 0.0 then 1.0 else 0.0)
    ensures Won()(t) + Lost()(t) == t.pnlAbs && Lost()(t) <= 0.0
  {
  }

  /** Trades in order of closing, several at one moment included, are taken in that order. */
  lemma TradesInOrderStay(trades: seq<TradeLog>)
    requires forall i, j | 0 <= i < j < |trades| :: trades[i].closedAt <= trades[j].closedAt
    ensures StableSort(trades, ClosedNoLater) == trades
  {
    assert forall i, j | 0 <= i < j < |trades| :: ClosedNoLater(trades[i], trades[j]);
    SortOfSorted(trades, ClosedNoLater);
  }

  /** Two days that returned a tenth and three tenths: a mean of a fifth, a variance of a fiftieth. */
  lemma SharpeExample()
    ensures SharpeOf([0.1, 0.3]) == Ratio(0.2, 0.02) && SharpeOf([0.1]) == Zero && SharpeOf([0.2, 0.2]) == Zero
  {
    TwoSum(0.1, 0.3, Identity());
    TwoSum(0.2, 0.2, Identity());
    TwoSum(0.1, 0.3, (x: real) => (x - 0.2) * (x - 0.2));
    TwoSum(0.2, 0.2, (x: real) => (x - 0.2) * (x - 0.2));
    hide SumBy;
  }

  lemma TwoSum(a: real, b: real, f: real -> real)
    ensures SumBy([a, b], f) == f(a) + f(b)
  {
    assert [a, b][..1] == [a];
    assert SumBy([a], f) == SumBy([], f) + f(a);
  }

  /** Ten lost of a hundred, five made, twenty lost: at worst a quarter of the height was lost. */
  lemma DrawdownExample()
    ensures Drop([100.0, 90.0, 95.0, 75.0], 0, 3) == 0.25
    ensures EquityCurve(100.0, [-10.0, 5.0, -20.0]) == [100.0, 90.0, 95.0, 75.0]
  {
    assert [-10.0, 5.0, -20.0][..2] == [-10.0, 5.0] && [-10.0, 5.0][..1] == [-10.0] && [-10.0][..0] == [];
    assert EquityCurve(100.0, []) == [100.0];
    assert EquityCurve(100.0, [-10.0]) == [100.0, 90.0];
    assert EquityCurve(100.0, [-10.0, 5.0]) == [100.0, 90.0, 95.0];
  }
}
