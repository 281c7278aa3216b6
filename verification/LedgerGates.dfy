/**
 Safety of whole runs: the caps on open positions and on openings per day, the cooldown after a
 loss, and the drawdown and streak limits hold at every opening of every run; stops ratchet from
 any bar to any later one.
 */
module LedgerGates {
  import opened Prelude
  import opened Models
  import opened Funding
  import opened RuntimeLimits
  import opened Ledger
  import opened LedgerShape
  import opened LedgerSettlement
  import opened LedgerRuns
  import opened LedgerTrades
  import Calendar
  import Governance
  import RiskEngine
  import SignalEngine

  // ---------------------------------------------------------------- caps

  ghost predicate WithinCaps(config: RunConfig, b: Books) {
    && |b.open| <= MaxInt(config.risk.maxOpenPositions, 0)
    && forall date :: OnDate(b.opens, date) <= MaxInt(config.governance.maxTradesPerDay, 0)
  }

  lemma {:induction false} SweepShrinks(config: RunConfig, rows: seq<RawFunding>, open: seq<Record>, s: Snapshot,
                                        n: nat)
    requires n <= |open| && Sweep(config, rows, open, s, n).Ok?
    ensures |Sweep(config, rows, open, s, n).value.remaining| <= n
  {
    hide StepRecord;
    if n > 0 {
      SweepShrinks(config, rows, open, s, n - 1);
    }
  }

  lemma OnDateSnoc(times: seq<int>, t: int, date: int)
    ensures OnDate(times + [t], date) == OnDate(times, date) + (if Calendar.Date(t) == date then 1 else 0)
  {
    assert (times + [t])[..|times|] == times;
  }

  lemma DecideWithinCaps(config: RunConfig, b: Books, now: int, candidate: Option<SignalCandidate>)
    requires WithinCaps(config, b) && Decide(config, b, now, candidate).Ok?
    ensures WithinCaps(config, Decide(config, b, now, candidate).value.books)
  {
    hide Decide, Gated, NewRecord, RiskEngine.SelectLeverage, OnDate, TailLosses, DailyDrawdown, WeeklyDrawdown,
        Latest, LossTimes;
    DecideShape(config, b, now, candidate);
    if Decide(config, b, now, candidate).value.decision.Executed? {
      PassShape(config, b, now, candidate);
      forall date ensures OnDate(b.opens + [now], date) <= MaxInt(config.governance.maxTradesPerDay, 0) {
        OnDateSnoc(b.opens, now, date);
      }
    }
  }

  /** At no point of any run are more positions open, or were more opened on any UTC date, than the
      configuration allows. */
  lemma {:induction false} RunWithinCaps(config: RunConfig, rows: seq<RawFunding>, bars: seq<Snapshot>,
                                         candidates: seq<Option<SignalCandidate>>, n: nat)
    requires n <= |bars| == |candidates| && Run(config, rows, bars, candidates, n).Ok?
    ensures WithinCaps(config, Run(config, rows, bars, candidates, n).value)
  {
    hide Step;
    if n > 0 {
      RunStep(config, rows, bars, candidates, n);
      RunWithinCaps(config, rows, bars, candidates, n - 1);
      var b, s := Run(config, rows, bars, candidates, n - 1).value, bars[n - 1];
      hide Run, Booked, Decide, OnDate;
      var swept, mid, decided := StepShape(config, rows, b, s, candidates[n - 1]);
      SweepShrinks(config, rows, b.open, s, |b.open|);
      BookedKeeps(b, swept.closed);
      DecideWithinCaps(config, mid, s.timestamp, candidates[n - 1]);
    }
  }

  // ---------------------------------------------------------------- cooldown, drawdown, streak

  /** Time moves strictly forward from bar to bar. */
  ghost predicate StrictlyInOrder(bars: seq<Snapshot>) {
    forall i, j | 0 <= i < j < |bars| :: bars[i].timestamp < bars[j].timestamp
  }

  /** The limits held at `now` given the trades closed so far. */
  ghost predicate LimitsHeld(config: RunConfig, closed: seq<ClosedTradeRecord>, now: int) {
    var events := Events(closed);
    && TailLosses(closed, now) < config.governance.maxConsecutiveLosses
    && TailLosses(closed, now) < config.risk.maxConsecutiveLosses
    && DailyDrawdown(events, now, config.StartingEquity()) < config.governance.dailyDdLimit
    && DailyDrawdown(events, now, config.StartingEquity()) < config.risk.dailyDdLimit
    && WeeklyDrawdown(events, now, config.StartingEquity()) < config.governance.weeklyDdLimit
    && WeeklyDrawdown(events, now, config.StartingEquity()) < config.risk.weeklyDdLimit
    && forall k | 0 <= k < |closed| && closed[k].trade.pnlAbs < 0.0 ::
         now - closed[k].trade.closedAt >= Governance.Cooldown(config.governance)
  }

  /** The trade was closed after `now`, or by the forced close that ends the run. */
  ghost predicate ClosedLater(c: ClosedTradeRecord, now: int) {
    c.trade.closedAt > now || c.trade.exitReason.EndOfBacktest?
  }

  ghost predicate AllClosedBy(closed: seq<ClosedTradeRecord>, now: int) {
    forall k | 0 <= k < |closed| :: !ClosedLater(closed[k], now)
  }

  /** The first m trades are those that had closed by `now`, all others closed later, and the limits were
      held by exactly those that had closed. */
  ghost predicate SafeWith(config: RunConfig, closed: seq<ClosedTradeRecord>, now: int, m: nat) {
    && m <= |closed|
    && AllClosedBy(closed[..m], now)
    && LimitsHeld(config, closed[..m], now)
    && forall k | m <= k < |closed| :: ClosedLater(closed[k], now)
  }

  lemma SafeSides(config: RunConfig, closed: seq<ClosedTradeRecord>, now: int, m: nat, k: nat)
    requires SafeWith(config, closed, now, m) && k < |closed|
    ensures ClosedLater(closed[k], now) <==> m <= k
  {
    hide LimitsHeld, ClosedLater;
    if k < m {
      assert closed[..m][k] == closed[k];
    }
  }

  /** There is only one such m: the trades an opening is measured against are not a matter of choice. */
  lemma SafePrefixIsUnique(config: RunConfig, closed: seq<ClosedTradeRecord>, now: int, m: nat, m': nat)
    requires SafeWith(config, closed, now, m) && SafeWith(config, closed, now, m')
    ensures m == m'
  {
    hide LimitsHeld, ClosedLater, AllClosedBy;
    if m < |closed| {
      SafeSides(config, closed, now, m', m);
      SafeSides(config, closed, now, m, m);
    }
    if m' < |closed| {
      SafeSides(config, closed, now, m, m');
      SafeSides(config, closed, now, m', m');
    }
  }

  ghost predicate SafelyOpened(config: RunConfig, closed: seq<ClosedTradeRecord>, now: int) {
    exists m: nat :: SafeWith(config, closed, now, m)
  }

  ghost predicate AllSafelyOpened(config: RunConfig, b: Books) {
    forall i | 0 <= i < |b.opens| :: SafelyOpened(config, b.closed, b.opens[i])
  }

  lemma SafetyLasts(config: RunConfig, closed: seq<ClosedTradeRecord>, more: seq<ClosedTradeRecord>, now: int)
    requires SafelyOpened(config, closed, now) && forall k | 0 <= k < |more| :: ClosedLater(more[k], now)
    ensures SafelyOpened(config, closed + more, now)
  {
    hide LimitsHeld, ClosedLater, AllClosedBy;
    var m: nat :| SafeWith(config, closed, now, m);
    assert (closed + more)[..m] == closed[..m];
    assert SafeWith(config, closed + more, now, m);
  }

  lemma PassHoldsLimits(config: RunConfig, b: Books, now: int, candidate: Option<SignalCandidate>)
    requires Gated(config, b, now, candidate).Pass? && b.events == Events(b.closed)
    requires candidate.Some? ==> SignalEngine.WellPlaced(candidate.value, now)
    ensures LimitsHeld(config, b.closed, now)
  {
    hide Gated, Events, TailLosses, DailyDrawdown, WeeklyDrawdown, OnDate, Latest, LossTimes, RiskEngine.SelectLeverage;
    PassShape(config, b, now, candidate);
    forall k | 0 <= k < |b.closed| && b.closed[k].trade.pnlAbs < 0.0
      ensures now - b.closed[k].trade.closedAt >= Governance.Cooldown(config.governance)
    {
      LossTimesAreLosses(b.closed, k);
      LatestIsLatest(LossTimes(b.closed));
    }
  }

  lemma DecideKeepsSafety(config: RunConfig, b: Books, now: int, candidate: Option<SignalCandidate>)
    requires AllSafelyOpened(config, b) && b.events == Events(b.closed) && Decide(config, b, now, candidate).Ok?
    requires AllClosedBy(b.closed, now)
    requires candidate.Some? ==> SignalEngine.WellPlaced(candidate.value, now)
    ensures AllSafelyOpened(config, Decide(config, b, now, candidate).value.books)
  {
    hide Decide, Gated, NewRecord, LimitsHeld, Events, SignalEngine.WellPlaced;
    DecideShape(config, b, now, candidate);
    if Decide(config, b, now, candidate).value.decision.Executed? {
      PassHoldsLimits(config, b, now, candidate);
      assert b.closed[..|b.closed|] == b.closed;
      assert SafeWith(config, b.closed, now, |b.closed|);
    }
  }

  lemma SweepClosesNow(config: RunConfig, rows: seq<RawFunding>, open: seq<Record>, s: Snapshot)
    requires AllBalanced(config, open) && Sweep(config, rows, open, s, |open|).Ok?
    ensures forall k | 0 <= k < |Sweep(config, rows, open, s, |open|).value.closed| ::
              var trade := Sweep(config, rows, open, s, |open|).value.closed[k].trade;
              trade.closedAt == s.timestamp && !trade.exitReason.EndOfBacktest?
  {
    hide StepRecord, Sweep, Balanced;
    SweepSources(config, rows, open, s, |open|);
    forall i | 0 <= i < |open| && StepRecord(config, rows, open[i], s).Ok?
      ensures StepRecord(config, rows, open[i], s).value.Settled? ==>
                var trade := StepRecord(config, rows, open[i], s).value.closed.trade;
                trade.closedAt == s.timestamp && !trade.exitReason.EndOfBacktest?
    {
      StepKeepsIdentity(config, rows, open[i], s);
    }
  }

  lemma BarKeepsSafety(config: RunConfig, rows: seq<RawFunding>, b: Books, s: Snapshot,
                       candidate: Option<SignalCandidate>)
    requires AllSafelyOpened(config, b) && AllBalanced(config, b.open) && b.events == Events(b.closed)
    requires forall i | 0 <= i < |b.opens| :: b.opens[i] < s.timestamp
    requires AllClosedBy(b.closed, s.timestamp)
    requires candidate.Some? ==> SignalEngine.WellPlaced(candidate.value, s.timestamp)
    requires Step(config, rows, b, s, candidate).Ok?
    ensures AllSafelyOpened(config, Step(config, rows, b, s, candidate).value.books)
    ensures var b' := Step(config, rows, b, s, candidate).value.books;
            AllClosedBy(b'.closed, s.timestamp) && forall i | 0 <= i < |b'.opens| :: b'.opens[i] <= s.timestamp
  {
    hide Sweep, Decide, Balanced, Booked, SafelyOpened, SignalEngine.WellPlaced, Events, Gated, NewRecord;
    var swept, mid, decided := StepShape(config, rows, b, s, candidate);
    hide Step;
    SweepClosesNow(config, rows, b.open, s);
    BookedCloses(b, swept.closed);
    BookedKeeps(b, swept.closed);
    EventsFollow(b, swept.closed);
    forall i | 0 <= i < |b.opens| ensures SafelyOpened(config, mid.closed, b.opens[i]) {
      SafetyLasts(config, b.closed, swept.closed, b.opens[i]);
    }
    DecideKeepsSafety(config, mid, s.timestamp, candidate);
    DecideShape(config, mid, s.timestamp, candidate);
  }

  lemma EventsFollow(b: Books, closed: seq<ClosedTradeRecord>)
    requires b.events == Events(b.closed)
    ensures Booked(b, closed).events == Events(Booked(b, closed).closed)
  {
  }

  lemma {:induction false} RunKeepsSafety(config: RunConfig, rows: seq<RawFunding>, bars: seq<Snapshot>,
                                          candidates: seq<Option<SignalCandidate>>, n: nat)
    requires n <= |bars| == |candidates| && StrictlyInOrder(bars) && WellPlacedCandidates(bars, candidates)
    requires Run(config, rows, bars, candidates, n).Ok?
    ensures AllSafelyOpened(config, Run(config, rows, bars, candidates, n).value)
    ensures n > 0 ==> AllClosedBy(Run(config, rows, bars, candidates, n).value.closed, bars[n - 1].timestamp)
    ensures n == 0 ==> Run(config, rows, bars, candidates, n).value.closed == []
    ensures forall i | 0 <= i < |Run(config, rows, bars, candidates, n).value.opens| ::
              n > 0 && Run(config, rows, bars, candidates, n).value.opens[i] <= bars[n - 1].timestamp
  {
    hide Step, AllBalanced, TradesTell, SafelyOpened, SignalEngine.WellPlaced, Events, SumBy, Pnls;
    if n > 0 {
      RunStep(config, rows, bars, candidates, n);
      RunKeepsSafety(config, rows, bars, candidates, n - 1);
      RunTells(config, rows, bars, candidates, n - 1);
      RunConserves(config, rows, bars, candidates, n - 1);
      var b, s := Run(config, rows, bars, candidates, n - 1).value, bars[n - 1];
      hide Run;
      BarKeepsSafety(config, rows, b, s, candidates[n - 1]);
    }
  }

  /** Over every finished run: each opening happened with the drawdown, streak and cooldown limits
      held by exactly the trades that had closed by that moment. */
  lemma FinalKeepsSafety(config: RunConfig, rows: seq<RawFunding>, bars: seq<Snapshot>,
                         candidates: seq<Option<SignalCandidate>>)
    requires |bars| == |candidates| && StrictlyInOrder(bars) && WellPlacedCandidates(bars, candidates)
    requires Final(config, rows, bars, candidates).Ok?
    ensures AllSafelyOpened(config, Final(config, rows, bars, candidates).value)
    ensures forall date ::
              OnDate(Final(config, rows, bars, candidates).value.opens, date)
              <= MaxInt(config.governance.maxTradesPerDay, 0)
  {
    hide Run, Balanced, TradesTell, SafelyOpened, ForceClosedAll, ForceClosed, Booked, OnDate;
    RunKeepsSafety(config, rows, bars, candidates, |bars|);
    RunTells(config, rows, bars, candidates, |bars|);
    RunWithinCaps(config, rows, bars, candidates, |bars|);
    var b := Run(config, rows, bars, candidates, |bars|).value;
    if |bars| > 0 && |b.open| > 0 {
      var last := bars[|bars| - 1];
      var closed := ForceClosedAll(config, rows, b.open, last.timestamp, last.price, |b.open|).value;
      ForceSources(config, rows, b.open, last.timestamp, last.price, |b.open|);
      forall k | 0 <= k < |closed| ensures closed[k].trade.exitReason.EndOfBacktest? {
        ForceClosedTells(config, rows, b.open[k], last.timestamp, last.price);
      }
      BookedCloses(b, closed);
      BookedKeeps(b, closed);
      forall i | 0 <= i < |b.opens| ensures SafelyOpened(config, b.closed + closed, b.opens[i]) {
        SafetyLasts(config, b.closed, closed, b.opens[i]);
      }
    }
  }

  /** Read off the trades alone: no position was opened within the cooldown of a losing trade closed
      before it, or at the same bar by its own exit rule. */
  lemma CooldownRespected(config: RunConfig, b: Books, i: nat, k: nat)
    requires AllSafelyOpened(config, b) && i < |b.opens| && k < |b.closed|
    requires b.closed[k].trade.pnlAbs < 0.0
    requires b.closed[k].trade.closedAt <= b.opens[i] && !b.closed[k].trade.exitReason.EndOfBacktest?
    ensures b.opens[i] - b.closed[k].trade.closedAt >= Governance.Cooldown(config.governance)
  {
    hide TailLosses, DailyDrawdown, WeeklyDrawdown, Events;
    assert SafelyOpened(config, b.closed, b.opens[i]);
    var m: nat :| SafeWith(config, b.closed, b.opens[i], m);
    assert b.closed[..m][k] == b.closed[k];
  }

  // ---------------------------------------------------------------- ratchet over runs

  /** The same position at two points of a run: once part of it was sold, nothing more is sold while
      it stays open and its stop only moves towards profit. */
  ghost predicate Ratcheted(r: Record, r': Record) {
    && r'.tradeId == r.tradeId && r'.position.direction == r.position.direction
    && r'.position.entryPrice == r.position.entryPrice
    && (r.partialExitDone ==>
          && r'.partialExitDone
          && r'.position.size == r.position.size
          && r.position.direction.Signed(r'.position.stopLoss - r.position.stopLoss) >= 0.0
          && r.position.direction.Signed(r'.position.stopLoss - r.position.entryPrice) >= 0.0)
  }

  ghost predicate HasSource(open: seq<Record>, r': Record) {
    exists i | 0 <= i < |open| :: Ratcheted(open[i], r')
  }

  lemma StepRatchets(config: RunConfig, rows: seq<RawFunding>, r: Record, s: Snapshot)
    requires Balanced(config, r) && StepRecord(config, rows, r, s).Ok? && StepRecord(config, rows, r, s).value.Kept?
    ensures Ratcheted(r, StepRecord(config, rows, r, s).value.record)
  {
    hide StepRecord, Balanced;
    StepKeepsIdentity(config, rows, r, s);
    if r.partialExitDone {
      StopRatchets(config, rows, r, s);
    }
  }

  /** From bar j to bar n: a position that was already numbered at bar j and is still open at bar n
      has ratcheted from its state at bar j. */
  lemma {:induction false} RunRatchets(config: RunConfig, rows: seq<RawFunding>, bars: seq<Snapshot>,
                                       candidates: seq<Option<SignalCandidate>>, j: nat, n: nat)
    requires j <= n <= |bars| == |candidates| && Run(config, rows, bars, candidates, n).Ok?
    ensures Run(config, rows, bars, candidates, j).Ok?
    ensures var before, after := Run(config, rows, bars, candidates, j).value,
            Run(config, rows, bars, candidates, n).value;
            && before.tradeCounter <= after.tradeCounter
            && forall k | 0 <= k < |after.open| && after.open[k].tradeId <= before.tradeCounter ::
                HasSource(before.open, after.open[k])
    decreases n
  {
    hide Step, Balanced, TradesTell, Ratcheted;
    RunTells(config, rows, bars, candidates, n);
    if j < n {
      RunStep(config, rows, bars, candidates, n);
      RunRatchets(config, rows, bars, candidates, j, n - 1);
      RunTells(config, rows, bars, candidates, n - 1);
      var b, s := Run(config, rows, bars, candidates, n - 1).value, bars[n - 1];
      BarRatchets(config, rows, Run(config, rows, bars, candidates, j).value, b, s, candidates[n - 1]);
    } else {
      var open := Run(config, rows, bars, candidates, n).value.open;
      forall k | 0 <= k < |open| ensures HasSource(open, open[k]) {
        RatchetedItself(config, open[k]);
      }
    }
  }

  lemma RatchetedItself(config: RunConfig, r: Record)
    requires Balanced(config, r)
    ensures Ratcheted(r, r)
  {
    hide MoneyBalances, ShareSold;
  }

  lemma RatchetComposes(r: Record, r': Record, r'': Record)
    requires Ratcheted(r, r') && Ratcheted(r', r'')
    ensures Ratcheted(r, r'')
  {
  }

  lemma BarRatchets(config: RunConfig, rows: seq<RawFunding>, first: Books, b: Books, s: Snapshot,
                    candidate: Option<SignalCandidate>)
    requires AllBalanced(config, b.open) && Step(config, rows, b, s, candidate).Ok?
             && first.tradeCounter <= b.tradeCounter
    requires forall k | 0 <= k < |b.open| && b.open[k].tradeId <= first.tradeCounter :: HasSource(first.open, b.open[k])
    ensures var b' := Step(config, rows, b, s, candidate).value.books;
            && b.tradeCounter <= b'.tradeCounter
            && forall k | 0 <= k < |b'.open| && b'.open[k].tradeId <= first.tradeCounter ::
                HasSource(first.open, b'.open[k])
  {
    hide Sweep, Decide, Balanced, Booked, Gated, StepRecord, Ratcheted, NewRecord;
    var swept, mid, decided := StepShape(config, rows, b, s, candidate);
    hide Step;
    BookedKeeps(b, swept.closed);
    SweepSources(config, rows, b.open, s, |b.open|);
    forall k | 0 <= k < |mid.open| && mid.open[k].tradeId <= first.tradeCounter
      ensures HasSource(first.open, mid.open[k]) {
      var i :| 0 <= i < |b.open| && StepRecord(config, rows, b.open[i], s) == Ok(Kept(mid.open[k]));
      StepRatchets(config, rows, b.open[i], s);
      RatchetNames(b.open[i], mid.open[k]);
      var h :| 0 <= h < |first.open| && Ratcheted(first.open[h], b.open[i]);
      RatchetComposes(first.open[h], b.open[i], mid.open[k]);
    }
    DecideShape(config, mid, s.timestamp, candidate);
    if decided.decision.Executed? {
      var gate := Gated(config, mid, s.timestamp, candidate);
      NewRecordId(config, mid, s.timestamp, gate.candidate, gate.size, gate.leverage);
    }
  }

  lemma RatchetNames(r: Record, r': Record)
    requires Ratcheted(r, r')
    ensures r.tradeId == r'.tradeId
  {
  }

  /** A position open at two points of a run has ratcheted in between. */
  lemma SamePositionRatchets(config: RunConfig, rows: seq<RawFunding>, bars: seq<Snapshot>,
                             candidates: seq<Option<SignalCandidate>>, j: nat, n: nat, i: nat, k: nat)
    requires j <= n <= |bars| == |candidates| && Run(config, rows, bars, candidates, n).Ok?
             && Run(config, rows, bars, candidates, j).Ok?
    requires i < |Run(config, rows, bars, candidates, j).value.open|
             && k < |Run(config, rows, bars, candidates, n).value.open|
    requires Run(config, rows, bars, candidates, j).value.open[i].tradeId
             == Run(config, rows, bars, candidates, n).value.open[k].tradeId
    ensures Ratcheted(Run(config, rows, bars, candidates, j).value.open[i],
                      Run(config, rows, bars, candidates, n).value.open[k])
  {
    hide Run, Ratcheted, Events, SumBy, Pnls, OpenIds, ClosedIds;
    RunRatchets(config, rows, bars, candidates, j, n);
    RunConserves(config, rows, bars, candidates, j);
    var before, r' := Run(config, rows, bars, candidates, j).value,
        Run(config, rows, bars, candidates, n).value.open[k];
    OpenIdsHas(before.open, i);
    NumbersAreDistinct(before.tradeCounter, r'.tradeId);
    var h :| 0 <= h < |before.open| && Ratcheted(before.open[h], r');
    RatchetNames(before.open[h], r');
    if h != i {
      OpenIdsCount(before.open, if h < i then h else i, if h < i then i else h);
    }
  }
}
