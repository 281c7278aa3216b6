/** What the gates know about the run so far, recomputed from its history at every bar
    (backtest/backtest_runner.py, `_compute_runtime_state` and its helpers). */
module RuntimeLimits {
  import opened Prelude
  import opened Models
  import opened Sorting
  import opened Performance
  import Calendar
  import Governance
  import RiskEngine

  datatype ClosedTradeRecord = ClosedTradeRecord(
    position: Position,
    candidate: SignalCandidate,
    executable: ExecutableSignal,
    trade: TradeLog)

  datatype PnlEvent = PnlEvent(at: int, pnl: real)

  datatype RuntimeState = RuntimeState(
    now: int,
    tradesToday: nat,
    consecutiveLosses: nat,
    dailyDdPct: real,
    weeklyDdPct: real,
    lastTradeAt: Option<int>,
    lastLossAt: Option<int>)
  {
    function ForGovernance(): Governance.GovernanceRuntimeState {
      Governance.GovernanceRuntimeState(tradesToday, consecutiveLosses, dailyDdPct, weeklyDdPct, lastTradeAt,
                                        lastLossAt)
    }

    function ForRisk(): RiskEngine.RiskRuntimeState {
      RiskEngine.RiskRuntimeState(consecutiveLosses, dailyDdPct, weeklyDdPct)
    }
  }

  /** How many of the given times fall on this UTC date. */
  function OnDate(times: seq<int>, date: int): nat {
    if |times| == 0 then 0
    else OnDate(times[..|times| - 1], date) + (if Calendar.Date(times[|times| - 1]) == date then 1 else 0)
  }

  function Latest(times: seq<int>): Option<int> {
    if |times| == 0 then None
    else
      match Latest(times[..|times| - 1])
      case None => Some(times[|times| - 1])
      case Some(t) => Some(MaxInt(t, times[|times| - 1]))
  }

  function LossTimes(closed: seq<ClosedTradeRecord>): seq<int> {
    if |closed| == 0 then []
    else
      var last := closed[|closed| - 1].trade;
      LossTimes(closed[..|closed| - 1]) + (if last.pnlAbs < 0.0 then [last.closedAt] else [])
  }

  lemma {:induction false} LatestIsLatest(times: seq<int>)
    ensures Latest(times).None? <==> |times| == 0
    ensures Latest(times).Some? ==>
              Latest(times).value in times && forall t | t in times :: t <= Latest(times).value
  {
    if |times| > 0 {
      var init, last := times[..|times| - 1], times[|times| - 1];
      LatestIsLatest(init);
      LatestSnoc(times);
      hide Latest;
      assert times == init + [last];
    }
  }

  lemma LatestSnoc(times: seq<int>)
    requires |times| > 0
    ensures var before, last := Latest(times[..|times| - 1]), times[|times| - 1];
            Latest(times) == Some(if before.Some? && before.value > last then before.value else last)
  {
  }

  lemma {:induction false} LossTimesAreLosses(closed: seq<ClosedTradeRecord>, i: nat)
    requires i < |closed| && closed[i].trade.pnlAbs < 0.0
    ensures closed[i].trade.closedAt in LossTimes(closed)
  {
    if i < |closed| - 1 {
      LossTimesAreLosses(closed[..|closed| - 1], i);
    }
  }

  lemma {:induction false} LossTimesHaveLosses(closed: seq<ClosedTradeRecord>, t: int)
    requires t in LossTimes(closed)
    ensures exists i | 0 <= i < |closed| :: closed[i].trade.closedAt == t && closed[i].trade.pnlAbs < 0.0
  {
    var init := closed[..|closed| - 1];
    if t in LossTimes(init) {
      LossTimesHaveLosses(init, t);
      var i :| 0 <= i < |init| && init[i].trade.closedAt == t && init[i].trade.pnlAbs < 0.0;
      assert closed[i] == init[i];
    }
  }

  /** The streak of losing trades at the end of the record, counting back through trades closed on
      the same date as `now`; flat trades neither count nor stop the count. */
  function TailLosses(closed: seq<ClosedTradeRecord>, now: int): nat {
    if |closed| == 0 then 0
    else
      var last := closed[|closed| - 1].trade;
      if Calendar.Date(last.closedAt) != Calendar.Date(now) || last.pnlAbs > 0.0 then 0
      else TailLosses(closed[..|closed| - 1], now) + (if last.pnlAbs < 0.0 then 1 else 0)
  }

  function Pnls(closed: seq<ClosedTradeRecord>): seq<real> {
    seq(|closed|, i requires 0 <= i < |closed| => closed[i].trade.pnlAbs)
  }

  predicate SameDayNoWin(closed: seq<ClosedTradeRecord>, now: int, i: nat)
    requires i < |closed|
  {
    Calendar.Date(closed[i].trade.closedAt) == Calendar.Date(now) && closed[i].trade.pnlAbs <= 0.0
  }

  /** `TailLosses` counts the losses in the longest tail of same-day trades without a win. */
  lemma {:induction false} TailLossesMeaning(closed: seq<ClosedTradeRecord>, now: int) returns (start: nat)
    ensures start <= |closed|
    ensures forall i | start <= i < |closed| :: SameDayNoWin(closed, now, i)
    ensures start > 0 ==> !SameDayNoWin(closed, now, start - 1)
    ensures TailLosses(closed, now) == LossesIn(Pnls(closed), start, |closed|)
  {
    if |closed| == 0 {
      return 0;
    }
    var n := |closed| - 1;
    if !SameDayNoWin(closed, now, n) {
      return n + 1;
    }
    start := TailLossesMeaning(closed[..n], now);
    forall i | start <= i < n ensures SameDayNoWin(closed, now, i) {
      assert SameDayNoWin(closed[..n], now, i);
    }
    if start > 0 {
      assert !SameDayNoWin(closed[..n], now, start - 1);
    }
    LossesInPrefix(Pnls(closed[..n]), Pnls(closed), start, n);
  }

  lemma {:induction false} LossesInPrefix(a: seq<real>, b: seq<real>, i: nat, j: nat)
    requires i <= j <= |a| && j <= |b| && forall k | i <= k < j :: a[k] == b[k]
    ensures LossesIn(a, i, j) == LossesIn(b, i, j)
    decreases j
  {
    if i < j {
      LossesInPrefix(a, b, i, j - 1);
    }
  }

  method ConsecutiveLosses(closed: seq<ClosedTradeRecord>, now: int) returns (losses: nat)
    ensures losses == TailLosses(closed, now)
  {
    var nowDate := Calendar.Date(now);
    losses := 0;
    var i := |closed|;
    assert closed[..i] == closed;
    while i > 0
      invariant 0 <= i <= |closed|
      invariant TailLosses(closed, now) == losses + TailLosses(closed[..i], now)
    {
      i := i - 1;
      assert closed[..i + 1][..i] == closed[..i];
      if Calendar.Date(closed[i].trade.closedAt) != nowDate {
        break;
      }
      if closed[i].trade.pnlAbs < 0.0 {
        losses := losses + 1;
        continue;
      }
      if closed[i].trade.pnlAbs > 0.0 {
        break;
      }
    }
  }

  function BookedBefore(start: int): PnlEvent -> real {
    (e: PnlEvent) => if e.at < start then e.pnl else 0.0
  }

  function Within(events: seq<PnlEvent>, start: int, end: int): seq<real> {
    if |events| == 0 then []
    else
      var last := events[|events| - 1];
      Within(events[..|events| - 1], start, end) + (if start <= last.at < end then [last.pnl] else [])
  }

  function NoLater(a: PnlEvent, b: PnlEvent): bool {
    a.at <= b.at
  }

  /** Equity at the start of a period: what was booked before it, never below the guard. */
  function EquityAt(events: seq<PnlEvent>, start: int, initialEquity: real): real {
    Max(initialEquity + SumBy(events, BookedBefore(start)), TINY)
  }

  /** The drawdown over the events of one period, by the same definition as the run's drawdown. */
  function PeriodDrawdown(events: seq<PnlEvent>, start: int, end: int, initialEquity: real): real {
    DrawdownOf(EquityAt(events, start, initialEquity), Within(StableSort(events, NoLater), start, end))
  }

  method ComputePeriodDrawdownPct(events: seq<PnlEvent>, start: int, end: int, initialEquity: real)
    returns (drawdownPct: real)
    ensures drawdownPct == PeriodDrawdown(events, start, end, initialEquity)
  {
    hide Tracks;
    var startingEquity := EquityAt(events, start, initialEquity);
    var peakEquity := startingEquity;
    var currentEquity := startingEquity;
    var maxDrawdown := 0.0;
    var ordered := StableSort(events, NoLater);
    TracksStart(startingEquity);
    for i := 0 to |ordered|
      invariant Tracks(startingEquity, Within(ordered[..i], start, end), currentEquity, peakEquity, maxDrawdown)
    {
      assert ordered[..i + 1][..i] == ordered[..i];
      if ordered[i].at < start || ordered[i].at >= end {
        assert Within(ordered[..i + 1], start, end) == Within(ordered[..i], start, end);
        continue;
      }
      TracksStep(startingEquity, Within(ordered[..i], start, end), ordered[i].pnl, currentEquity, peakEquity,
                 maxDrawdown);
      currentEquity := currentEquity + ordered[i].pnl;
      if currentEquity > peakEquity {
        peakEquity := currentEquity;
      }
      var drawdown := (peakEquity - currentEquity) / Max(peakEquity, TINY);
      if drawdown > maxDrawdown {
        maxDrawdown := drawdown;
      }
    }
    assert ordered[..|ordered|] == ordered;
    TracksResult(startingEquity, Within(ordered, start, end), currentEquity, peakEquity, maxDrawdown);
    drawdownPct := Min(Max(maxDrawdown, 0.0), 1.0);
  }

  lemma TracksResult(start: real, pnls: seq<real>, equity: real, peak: real, maxDd: real)
    requires Tracks(start, pnls, equity, peak, maxDd)
    ensures Min(Max(maxDd, 0.0), 1.0) == DrawdownOf(start, pnls)
  {
  }

  function DailyDrawdown(events: seq<PnlEvent>, now: int, initialEquity: real): real {
    PeriodDrawdown(events, Calendar.DayStart(now), Calendar.DayStart(now) + Calendar.DAY, initialEquity)
  }

  function WeeklyDrawdown(events: seq<PnlEvent>, now: int, initialEquity: real): real {
    PeriodDrawdown(events, Calendar.WeekStart(now), Calendar.WeekStart(now) + 7 * Calendar.DAY, initialEquity)
  }

  function Runtime(now: int, opens: seq<int>, closed: seq<ClosedTradeRecord>, events: seq<PnlEvent>,
                   initialEquity: real): RuntimeState {
    RuntimeState(
      now, OnDate(opens, Calendar.Date(now)), TailLosses(closed, now),
      DailyDrawdown(events, now, initialEquity), WeeklyDrawdown(events, now, initialEquity),
      Latest(opens), Latest(LossTimes(closed)))
  }

  method ComputeRuntimeState(now: int, opens: seq<int>, closed: seq<ClosedTradeRecord>, events: seq<PnlEvent>,
                             initialEquity: real)
    returns (runtime: RuntimeState)
    ensures runtime == Runtime(now, opens, closed, events, initialEquity)
  {
    var losses := ConsecutiveLosses(closed, now);
    var daily := ComputePeriodDrawdownPct(events, Calendar.DayStart(now), Calendar.DayStart(now) + Calendar.DAY,
                                          initialEquity);
    var weekly := ComputePeriodDrawdownPct(events, Calendar.WeekStart(now), Calendar.WeekStart(now) + 7 * Calendar.DAY,
                                           initialEquity);
    runtime := RuntimeState(now, OnDate(opens, Calendar.Date(now)), losses, daily, weekly, Latest(opens),
                            Latest(LossTimes(closed)));
  }

  // ---------------------------------------------------------------- in plain terms

  /** Events already in time order, several at one moment included, are summed up in that order. */
  lemma EventsInOrderStay(events: seq<PnlEvent>)
    requires forall i, j | 0 <= i < j < |events| :: events[i].at <= events[j].at
    ensures StableSort(events, NoLater) == events
  {
    assert forall i, j | 0 <= i < j < |events| :: NoLater(events[i], events[j]);
    SortOfSorted(events, NoLater);
  }

  /** The day of a moment and its week, Monday to Sunday, are what the drawdown limits look at; the equity a period
      begins with is the starting equity and all results booked before it. */
  lemma PeriodsInPlainTerms(events: seq<PnlEvent>, now: int, initialEquity: real)
    ensures var day, week := now - now % 86_400_000_000, Calendar.WeekStart(now);
            && DailyDrawdown(events, now, initialEquity)
               == DrawdownOf(EquityAt(events, day, initialEquity),
                             Within(StableSort(events, NoLater), day, day + 86_400_000_000))
            && WeeklyDrawdown(events, now, initialEquity)
               == DrawdownOf(EquityAt(events, week, initialEquity),
                             Within(StableSort(events, NoLater), week, week + 604_800_000_000))
  {
    hide DrawdownOf, EquityAt, Within, StableSort, Calendar.WeekStart;
    Calendar.DayHolds(now);
    assert Calendar.DayStart(now) == now - now % 86_400_000_000;
  }

  /** One more event: counted in a period exactly when it falls on or after its beginning and before its end, and in
      the equity before the period exactly when it is earlier. */
  lemma EventCounts(events: seq<PnlEvent>, e: PnlEvent, start: int, end: int)
    ensures Within(events + [e], start, end)
         == Within(events, start, end) + (if e.at < start || e.at >= end then [] else [e.pnl])
    ensures SumBy(events + [e], BookedBefore(start))
         == SumBy(events, BookedBefore(start)) + (if e.at < start then e.pnl else 0.0)
    ensures Within([], start, end) == []
  {
    assert (events + [e])[..|events|] == events;
  }

  /** The equity a period begins with is the starting equity and what was booked before, kept above the guard. */
  lemma EquityInPlainTerms(events: seq<PnlEvent>, e: PnlEvent, start: int, initialEquity: real)
    ensures EquityAt([], start, initialEquity) == if initialEquity < 0.00000001 then 0.00000001 else initialEquity
    ensures EquityAt(events + [e], start, initialEquity)
         == EquityAt(events, start, if e.at < start then initialEquity + e.pnl else initialEquity)
  {
    assert (events + [e])[..|events|] == events;
  }

  /** One more opening counts for the date it falls on. */
  lemma OpeningCounts(times: seq<int>, t: int, date: int)
    ensures OnDate(times + [t], date)
         == OnDate(times, date) + (if date * 86_400_000_000 <= t < (date + 1) * 86_400_000_000 then 1 else 0)
    ensures OnDate([], date) == 0
  {
    assert (times + [t])[..|times|] == times;
    Calendar.DayHolds(t);
    var day := Calendar.Date(t);
    if date * 86_400_000_000 <= t < (date + 1) * 86_400_000_000 {
      assert day == date;
    }
  }
}
