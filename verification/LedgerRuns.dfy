/**
 Whole runs: for every stream of bars and every source of candidates, each position opened ends in
 exactly one trade, the equity is what the trades made of it, and every trade tells what both its
 legs made.
 */
module LedgerRuns {
  import opened Prelude
  import opened Models
  import opened Funding
  import opened FillModel
  import opened RuntimeLimits
  import opened Ledger
  import opened LedgerShape
  import opened LedgerSettlement
  import Performance

  // ---------------------------------------------------------------- balanced books

  ghost predicate AllBalanced(config: RunConfig, open: seq<Record>) {
    forall i | 0 <= i < |open| :: Balanced(config, open[i])
  }

  /** The money of both legs can be read off the trade whenever its size is not below the guard. */
  ghost predicate TellsTheMoney(config: RunConfig, t: TradeLog) {
    SaneSlippage(config.fill, Market) && SlippageBps(config.fill, Market) < BPS ==>
      && (Gross(t) == GrossFromPrices(t) <==> t.size >= TINY)
      && (t.size >= TINY ==> t.fees == FeesFromPrices(config, t))
  }

  ghost predicate TradesTell(config: RunConfig, closed: seq<ClosedTradeRecord>) {
    forall i | 0 <= i < |closed| :: TellsTheMoney(config, closed[i].trade) && TrailingLegKeepsProfit(config, closed[i])
  }

  lemma StepTells(config: RunConfig, rows: seq<RawFunding>, r: Record, s: Snapshot)
    requires Balanced(config, r) && StepRecord(config, rows, r, s).Ok?
    ensures var outcome := StepRecord(config, rows, r, s).value;
            && !outcome.Dropped?
            && (outcome.Kept? ==> Balanced(config, outcome.record))
            && (outcome.Settled? ==>
                  TellsTheMoney(config, outcome.closed.trade) && TrailingLegKeepsProfit(config, outcome.closed))
  {
    StepKeepsBalance(config, rows, r, s);
    if StepRecord(config, rows, r, s).value.Settled? {
      SettledFrom(config, rows, r, s);
      var m := Marked(config, rows, r, s);
      TrailingLegFloor(config, m, s);
      if SaneSlippage(config.fill, Market) && SlippageBps(config.fill, Market) < BPS {
        EffectivePriceConserves(config, m, Exit(config, m, s).exitPrice.value, Exit(config, m, s).reason.value,
                                s.timestamp);
      }
    }
    hide StepRecord, Balanced, Marked, Exit, Settle, Gross, GrossFromPrices, FeesFromPrices, TrailingLegKeepsProfit;
  }

  lemma ForceClosedTells(config: RunConfig, rows: seq<RawFunding>, r: Record, now: int, price: real)
    requires Balanced(config, r) && ForceClosed(config, rows, r, now, price).Ok?
    ensures TellsTheMoney(config, ForceClosed(config, rows, r, now, price).value.trade)
    ensures TrailingLegKeepsProfit(config, ForceClosed(config, rows, r, now, price).value)
    ensures ForceClosed(config, rows, r, now, price).value.trade.tradeId == r.tradeId
    ensures ForceClosed(config, rows, r, now, price).value.trade.openedAt == r.position.openedAt
    ensures ForceClosed(config, rows, r, now, price).value.candidate == r.candidate
    ensures ForceClosed(config, rows, r, now, price).value.trade.exitReason == EndOfBacktest
    ensures ForceClosed(config, rows, r, now, price).value.trade.closedAt == now
  {
    var m := ForceClosedFrom(config, rows, r, now, price);
    SettledFields(config, m, price, EndOfBacktest, now);
    if SaneSlippage(config.fill, Market) && SlippageBps(config.fill, Market) < BPS {
      EffectivePriceConserves(config, m, price, EndOfBacktest, now);
    }
    hide ForceClosed, Balanced, Settle, Gross, GrossFromPrices, FeesFromPrices, FundingAccounted, PartialLeg;
  }

  /** At every point of every run the open positions balance and the closed trades tell the truth. */
  lemma {:induction false} RunTells(config: RunConfig, rows: seq<RawFunding>, bars: seq<Snapshot>,
                                    candidates: seq<Option<SignalCandidate>>, n: nat)
    requires n <= |bars| == |candidates| && Run(config, rows, bars, candidates, n).Ok?
    ensures AllBalanced(config, Run(config, rows, bars, candidates, n).value.open)
    ensures TradesTell(config, Run(config, rows, bars, candidates, n).value.closed)
  {
    hide Step, Balanced, TellsTheMoney, TrailingLegKeepsProfit;
    if n > 0 {
      RunStep(config, rows, bars, candidates, n);
      var b, s := Run(config, rows, bars, candidates, n - 1).value, bars[n - 1];
      RunTells(config, rows, bars, candidates, n - 1);
      hide Run;
      BarTells(config, rows, b, s, candidates[n - 1]);
    }
  }

  lemma BarTells(config: RunConfig, rows: seq<RawFunding>, b: Books, s: Snapshot, candidate: Option<SignalCandidate>)
    requires AllBalanced(config, b.open) && TradesTell(config, b.closed) && Step(config, rows, b, s, candidate).Ok?
    ensures AllBalanced(config, Step(config, rows, b, s, candidate).value.books.open)
    ensures TradesTell(config, Step(config, rows, b, s, candidate).value.books.closed)
  {
    hide Sweep, Decide, Balanced, TellsTheMoney, TrailingLegKeepsProfit, Gated, NewRecord, Booked;
    var swept, mid, decided := StepShape(config, rows, b, s, candidate);
    hide Step;
    SweepTells(config, rows, b.open, s);
    BookedCloses(b, swept.closed);
    DecideTells(config, mid, s.timestamp, candidate);
    DecideShape(config, mid, s.timestamp, candidate);
  }

  lemma SweepTells(config: RunConfig, rows: seq<RawFunding>, open: seq<Record>, s: Snapshot)
    requires AllBalanced(config, open) && Sweep(config, rows, open, s, |open|).Ok?
    ensures AllBalanced(config, Sweep(config, rows, open, s, |open|).value.remaining)
    ensures TradesTell(config, Sweep(config, rows, open, s, |open|).value.closed)
  {
    SweepSources(config, rows, open, s, |open|);
    forall i | 0 <= i < |open| && StepRecord(config, rows, open[i], s).Ok?
      ensures var outcome := StepRecord(config, rows, open[i], s).value;
              && (outcome.Kept? ==> Balanced(config, outcome.record))
              && (outcome.Settled? ==>
                    TellsTheMoney(config, outcome.closed.trade) && TrailingLegKeepsProfit(config, outcome.closed))
    {
      StepTells(config, rows, open[i], s);
    }
    hide StepRecord, Sweep, Balanced, TellsTheMoney, TrailingLegKeepsProfit;
  }

  lemma DecideTells(config: RunConfig, b: Books, now: int, candidate: Option<SignalCandidate>)
    requires AllBalanced(config, b.open) && Decide(config, b, now, candidate).Ok?
    ensures AllBalanced(config, Decide(config, b, now, candidate).value.books.open)
  {
    DecideShape(config, b, now, candidate);
    var gate := Gated(config, b, now, candidate);
    if Decide(config, b, now, candidate).value.decision.Executed? {
      OpenedIsBalanced(config, now, gate.candidate, Governance.ToExecutable(gate.candidate), gate.size, gate.leverage,
                       b.positionCounter + 1, b.tradeCounter + 1);
    }
    hide Decide, Balanced, Gated, Opened;
  }

  // ---------------------------------------------------------------- one trade per position

  ghost function OpenIds(open: seq<Record>): multiset<nat> {
    if |open| == 0 then multiset{} else OpenIds(open[..|open| - 1]) + multiset{open[|open| - 1].tradeId}
  }

  ghost function ClosedIds(closed: seq<ClosedTradeRecord>): multiset<nat> {
    if |closed| == 0 then multiset{}
    else ClosedIds(closed[..|closed| - 1]) + multiset{closed[|closed| - 1].trade.tradeId}
  }

  /** The numbers from 1 to n, each once. */
  ghost function Numbers(n: nat): multiset<nat> {
    if n == 0 then multiset{} else Numbers(n - 1) + multiset{n}
  }

  lemma {:induction false} ClosedIdsAppend(a: seq<ClosedTradeRecord>, b: seq<ClosedTradeRecord>)
    ensures ClosedIds(a + b) == ClosedIds(a) + ClosedIds(b)
  {
    if |b| == 0 {
      assert a + b == a;
    } else {
      assert (a + b)[..|a + b| - 1] == a + b[..|b| - 1];
      ClosedIdsAppend(a, b[..|b| - 1]);
    }
  }

  lemma OpenIdsSnoc(open: seq<Record>, r: Record)
    ensures OpenIds(open + [r]) == OpenIds(open) + multiset{r.tradeId}
  {
    assert (open + [r])[..|open|] == open;
  }

  lemma ClosedIdsSnoc(closed: seq<ClosedTradeRecord>, c: ClosedTradeRecord)
    ensures ClosedIds(closed + [c]) == ClosedIds(closed) + multiset{c.trade.tradeId}
  {
    assert (closed + [c])[..|closed|] == closed;
  }

  /** A bar moves identifiers from the open positions to the closed trades; none is lost or doubled. */
  lemma {:induction false} SweepKeepsIds(config: RunConfig, rows: seq<RawFunding>, open: seq<Record>, s: Snapshot,
                                         n: nat)
    requires n <= |open| && AllBalanced(config, open) && Sweep(config, rows, open, s, n).Ok?
    ensures var swept := Sweep(config, rows, open, s, n).value;
            OpenIds(swept.remaining) + ClosedIds(swept.closed) == OpenIds(open[..n])
  {
    NoIds();
    hide StepRecord, Balanced, OpenIds, ClosedIds;
    if n == 0 {
      assert open[..0] == [];
    } else {
      SweepKeepsIds(config, rows, open, s, n - 1);
      var r, swept := open[n - 1], Sweep(config, rows, open, s, n - 1).value;
      StepTells(config, rows, r, s);
      StepKeepsIdentity(config, rows, r, s);
      assert open[..n] == open[..n - 1] + [r];
      OpenIdsSnoc(open[..n - 1], r);
      var outcome := StepRecord(config, rows, r, s).value;
      if outcome.Kept? {
        OpenIdsSnoc(swept.remaining, outcome.record);
      } else {
        ClosedIdsSnoc(swept.closed, outcome.closed);
      }
    }
  }

  lemma NoIds()
    ensures OpenIds([]) == multiset{} && ClosedIds([]) == multiset{}
  {
  }

  lemma {:induction false} ForceKeepsIds(config: RunConfig, rows: seq<RawFunding>, open: seq<Record>, now: int,
                                         price: real, n: nat)
    requires n <= |open| && AllBalanced(config, open) && ForceClosedAll(config, rows, open, now, price, n).Ok?
    ensures ClosedIds(ForceClosedAll(config, rows, open, now, price, n).value) == OpenIds(open[..n])
  {
    NoIds();
    hide ForceClosed, Balanced, OpenIds, ClosedIds;
    if n == 0 {
      assert open[..0] == [];
    } else {
      ForceKeepsIds(config, rows, open, now, price, n - 1);
      ForceClosedTells(config, rows, open[n - 1], now, price);
      assert open[..n] == open[..n - 1] + [open[n - 1]];
      OpenIdsSnoc(open[..n - 1], open[n - 1]);
      ClosedIdsSnoc(ForceClosedAll(config, rows, open, now, price, n - 1).value,
                    ForceClosed(config, rows, open[n - 1], now, price).value);
    }
  }

  /** The position with this number was the one opened at that moment. */
  ghost predicate OpenedThen(opens: seq<int>, id: nat, at: int) {
    1 <= id <= |opens| && opens[id - 1] == at
  }

  /** Positions and trades carry the moment at which the position with their number was opened. */
  ghost predicate Anchored(b: Books) {
    && (forall i | 0 <= i < |b.open| :: OpenedThen(b.opens, b.open[i].tradeId, b.open[i].position.openedAt))
    && (forall i | 0 <= i < |b.closed| :: OpenedThen(b.opens, b.closed[i].trade.tradeId, b.closed[i].trade.openedAt))
  }

  lemma SweepAnchors(config: RunConfig, rows: seq<RawFunding>, b: Books, s: Snapshot)
    requires Anchored(b) && AllBalanced(config, b.open) && Sweep(config, rows, b.open, s, |b.open|).Ok?
    ensures var swept := Sweep(config, rows, b.open, s, |b.open|).value;
            Anchored(Booked(b, swept.closed).(open := swept.remaining))
  {
    hide StepRecord, Sweep, Balanced, Booked, OpenedThen;
    var swept := Sweep(config, rows, b.open, s, |b.open|).value;
    SweepSources(config, rows, b.open, s, |b.open|);
    BookedCloses(b, swept.closed);
    BookedKeeps(b, swept.closed);
    forall i | 0 <= i < |b.open| && StepRecord(config, rows, b.open[i], s).Ok?
      ensures var outcome := StepRecord(config, rows, b.open[i], s).value;
              && (outcome.Kept? ==> OpenedThen(b.opens, outcome.record.tradeId, outcome.record.position.openedAt))
              && (outcome.Settled? ==>
                    OpenedThen(b.opens, outcome.closed.trade.tradeId, outcome.closed.trade.openedAt))
    {
      StepKeepsIdentity(config, rows, b.open[i], s);
    }
  }

  lemma DecideAnchors(config: RunConfig, b: Books, now: int, candidate: Option<SignalCandidate>)
    requires Anchored(b) && |b.opens| == b.tradeCounter && Decide(config, b, now, candidate).Ok?
    ensures Anchored(Decide(config, b, now, candidate).value.books)
  {
    hide Decide, Gated, Opened;
    DecideShape(config, b, now, candidate);
    if Decide(config, b, now, candidate).value.decision.Executed? {
      var gate := Gated(config, b, now, candidate);
      NewRecordId(config, b, now, gate.candidate, gate.size, gate.leverage);
    }
    hide NewRecord;
  }

  lemma FinishedAnchors(config: RunConfig, rows: seq<RawFunding>, b: Books, now: int, price: real)
    requires Anchored(b) && AllBalanced(config, b.open)
    requires ForceClosedAll(config, rows, b.open, now, price, |b.open|).Ok?
    ensures Anchored(Booked(b, ForceClosedAll(config, rows, b.open, now, price, |b.open|).value).(open := []))
  {
    hide ForceClosedAll, ForceClosed, Balanced, Booked;
    var closed := ForceClosedAll(config, rows, b.open, now, price, |b.open|).value;
    ForceSources(config, rows, b.open, now, price, |b.open|);
    BookedCloses(b, closed);
    BookedKeeps(b, closed);
    forall k | 0 <= k < |closed| ensures OpenedThen(b.opens, closed[k].trade.tradeId, closed[k].trade.openedAt) {
      ForceClosedTells(config, rows, b.open[k], now, price);
    }
  }

  /** Every position ever opened is either open or recorded as one closed trade, under the number and
      the time of its opening; the equity is the starting equity plus what the closed trades made; the
      event log mirrors the trades. */
  ghost predicate Conserved(config: RunConfig, b: Books) {
    && OpenIds(b.open) + ClosedIds(b.closed) == Numbers(b.tradeCounter)
    && |b.opens| == b.tradeCounter
    && b.equity == config.StartingEquity() + SumBy(Pnls(b.closed), Performance.Identity())
    && b.events == Events(b.closed)
    && Anchored(b)
  }

  lemma BookedConserves(config: RunConfig, b: Books, closed: seq<ClosedTradeRecord>)
    requires b.equity == config.StartingEquity() + SumBy(Pnls(b.closed), Performance.Identity())
             && b.events == Events(b.closed)
    ensures var b' := Booked(b, closed);
            && b'.equity == config.StartingEquity() + SumBy(Pnls(b'.closed), Performance.Identity())
            && b'.events == Events(b'.closed)
            && ClosedIds(b'.closed) == ClosedIds(b.closed) + ClosedIds(closed)
  {
    hide SumBy, Events, Pnls, ClosedIds;
    ListsAppend(b.closed, closed);
    SumByAppend(Pnls(b.closed), Pnls(closed), Performance.Identity());
    ClosedIdsAppend(b.closed, closed);
  }

  lemma ListsAppend(a: seq<ClosedTradeRecord>, b: seq<ClosedTradeRecord>)
    ensures Pnls(a + b) == Pnls(a) + Pnls(b) && Events(a + b) == Events(a) + Events(b)
  {
  }

  lemma {:induction false} RunConserves(config: RunConfig, rows: seq<RawFunding>, bars: seq<Snapshot>,
                                        candidates: seq<Option<SignalCandidate>>, n: nat)
    requires n <= |bars| == |candidates| && Run(config, rows, bars, candidates, n).Ok?
    ensures Conserved(config, Run(config, rows, bars, candidates, n).value)
  {
    hide Step, Conserved, AllBalanced, TradesTell;
    if n == 0 {
      StartConserves(config);
    } else {
      RunStep(config, rows, bars, candidates, n);
      var b, s := Run(config, rows, bars, candidates, n - 1).value, bars[n - 1];
      RunConserves(config, rows, bars, candidates, n - 1);
      RunTells(config, rows, bars, candidates, n - 1);
      hide Run;
      StepConserves(config, rows, b, s, candidates[n - 1]);
    }
  }

  lemma StartConserves(config: RunConfig)
    ensures Conserved(config, Start(config))
  {
    assert Pnls(Start(config).closed) == [];
  }

  lemma StepConserves(config: RunConfig, rows: seq<RawFunding>, b: Books, s: Snapshot,
                      candidate: Option<SignalCandidate>)
    requires Conserved(config, b) && AllBalanced(config, b.open) && Step(config, rows, b, s, candidate).Ok?
    ensures Conserved(config, Step(config, rows, b, s, candidate).value.books)
  {
    hide Sweep, Decide, OpenIds, ClosedIds, Events, Pnls, SumBy, Booked, Balanced, OpenedThen;
    var swept, mid, decided := StepShape(config, rows, b, s, candidate);
    hide Step;
    SweepAnchors(config, rows, b, s);
    SweepKeepsIds(config, rows, b.open, s, |b.open|);
    assert b.open[..|b.open|] == b.open;
    BookedConserves(config, b, swept.closed);
    BookedKeeps(b, swept.closed);
    DecideConserves(config, mid, s.timestamp, candidate);
  }

  lemma DecideConserves(config: RunConfig, b: Books, now: int, candidate: Option<SignalCandidate>)
    requires Conserved(config, b) && Decide(config, b, now, candidate).Ok?
    ensures Conserved(config, Decide(config, b, now, candidate).value.books)
  {
    hide Decide, Gated, Opened, OpenIds, ClosedIds, Events, Pnls, SumBy, Anchored;
    DecideShape(config, b, now, candidate);
    DecideAnchors(config, b, now, candidate);
    if Decide(config, b, now, candidate).value.decision.Executed? {
      var gate := Gated(config, b, now, candidate);
      NewRecordId(config, b, now, gate.candidate, gate.size, gate.leverage);
      hide NewRecord;
      OpenIdsSnoc(b.open, NewRecord(config, b, now, gate.candidate, gate.size, gate.leverage).value);
    }
  }

  lemma NewRecordId(config: RunConfig, b: Books, now: int, c: SignalCandidate, size: real, leverage: int)
    requires NewRecord(config, b, now, c, size, leverage).Ok?
    ensures NewRecord(config, b, now, c, size, leverage).value.tradeId == b.tradeCounter + 1
    ensures NewRecord(config, b, now, c, size, leverage).value.position.openedAt == now
    ensures NewRecord(config, b, now, c, size, leverage).value.candidate == c
  {
    hide Simulate;
  }

  /** Over every run that ends without an error: nothing is left open, the closed trades are exactly
      the positions opened, each once and with the time of its opening, and the final equity is the
      starting equity plus the sum of their net results. */
  lemma FinalConserves(config: RunConfig, rows: seq<RawFunding>, bars: seq<Snapshot>,
                       candidates: seq<Option<SignalCandidate>>)
    requires |bars| == |candidates| && Final(config, rows, bars, candidates).Ok?
    ensures var b := Final(config, rows, bars, candidates).value;
            && b.open == []
            && ClosedIds(b.closed) == Numbers(|b.opens|)
            && (forall k | 0 <= k < |b.closed| ::
                  OpenedThen(b.opens, b.closed[k].trade.tradeId, b.closed[k].trade.openedAt))
            && b.equity == config.StartingEquity() + SumBy(Pnls(b.closed), Performance.Identity())
            && b.events == Events(b.closed)
            && TradesTell(config, b.closed)
            && (|bars| > 0 ==>
                  |b.curve| > 0 && b.curve[|b.curve| - 1] == EquityPoint(bars[|bars| - 1].timestamp, b.equity))
  {
    RunConserves(config, rows, bars, candidates, |bars|);
    RunTells(config, rows, bars, candidates, |bars|);
    var b := Run(config, rows, bars, candidates, |bars|).value;
    if |bars| > 0 {
      RunStep(config, rows, bars, candidates, |bars|);
      var before, last := Run(config, rows, bars, candidates, |bars| - 1).value, bars[|bars| - 1];
      var swept, mid, decided := StepShape(config, rows, before, last, candidates[|bars| - 1]);
      DecideShape(config, mid, last.timestamp, candidates[|bars| - 1]);
      if |b.open| > 0 {
        FinishedConserves(config, rows, b, last.timestamp, last.price);
      }
    }
    hide Run, Step, Sweep, Decide, OpenIds, ClosedIds, Events, Pnls, SumBy, ForceClosedAll, Booked, TradesTell, Gated,
        NewRecord, OpenedThen;
  }

  lemma FinishedConserves(config: RunConfig, rows: seq<RawFunding>, b: Books, now: int, price: real)
    requires |b.open| > 0 && Conserved(config, b) && AllBalanced(config, b.open) && TradesTell(config, b.closed)
    requires Finished(config, rows, b, now, price).Ok?
    ensures var b' := Finished(config, rows, b, now, price).value;
            && b'.open == [] && b'.opens == b.opens && b'.tradeCounter == b.tradeCounter
            && Conserved(config, b') && TradesTell(config, b'.closed)
            && |b'.curve| > 0 && b'.curve[|b'.curve| - 1] == EquityPoint(now, b'.equity)
  {
    NoIds();
    hide Booked, ForceClosedAll, ForceClosed, OpenIds, ClosedIds, Events, Pnls, SumBy, TellsTheMoney,
        TrailingLegKeepsProfit, Balanced, OpenedThen;
    FinishedAnchors(config, rows, b, now, price);
    var closed := ForceClosedAll(config, rows, b.open, now, price, |b.open|).value;
    ForceKeepsIds(config, rows, b.open, now, price, |b.open|);
    assert b.open[..|b.open|] == b.open;
    BookedConserves(config, b, closed);
    BookedKeeps(b, closed);
    ForceSources(config, rows, b.open, now, price, |b.open|);
    forall i | 0 <= i < |closed|
      ensures TellsTheMoney(config, closed[i].trade) && TrailingLegKeepsProfit(config, closed[i]) {
      ForceClosedTells(config, rows, b.open[i], now, price);
    }
    BookedCloses(b, closed);
  }

  lemma OneBalanced(config: RunConfig, open: seq<Record>, k: nat)
    requires AllBalanced(config, open) && k < |open|
    ensures Balanced(config, open[k])
  {
  }

  lemma BookedCloses(b: Books, closed: seq<ClosedTradeRecord>)
    ensures Booked(b, closed).closed == b.closed + closed
  {
  }

  /** The identifiers 1 to n, each once: as many trades as openings, and no two alike. */
  lemma {:induction false} NumbersAreDistinct(n: nat, k: nat)
    ensures Numbers(n)[k] == (if 1 <= k <= n then 1 else 0)
    ensures |Numbers(n)| == n
  {
    if n > 0 {
      NumbersAreDistinct(n - 1, k);
    }
  }

  lemma {:induction false} ClosedIdsCount(closed: seq<ClosedTradeRecord>)
    ensures |ClosedIds(closed)| == |closed|
  {
    if |closed| > 0 {
      ClosedIdsCount(closed[..|closed| - 1]);
    }
  }

  /** Two open positions with the same number would show twice among the open numbers. */
  lemma {:induction false} OpenIdsCount(open: seq<Record>, i: nat, k: nat)
    requires i < k < |open| && open[i].tradeId == open[k].tradeId
    ensures OpenIds(open)[open[i].tradeId] >= 2
  {
    if k == |open| - 1 {
      OpenIdsHas(open[..k], i);
    } else {
      OpenIdsCount(open[..|open| - 1], i, k);
    }
  }

  lemma {:induction false} OpenIdsHas(open: seq<Record>, i: nat)
    requires i < |open|
    ensures OpenIds(open)[open[i].tradeId] >= 1
  {
    if i < |open| - 1 {
      OpenIdsHas(open[..|open| - 1], i);
    }
  }

  lemma {:induction false} ClosedIdsHas(closed: seq<ClosedTradeRecord>, i: nat)
    requires i < |closed|
    ensures ClosedIds(closed)[closed[i].trade.tradeId] >= 1
  {
    if i < |closed| - 1 {
      ClosedIdsHas(closed[..|closed| - 1], i);
    }
  }

  /** In conserved books an open position shares its number with no other position, open or closed. */
  lemma OpenNumberIsItsOwn(config: RunConfig, b: Books, i: nat)
    requires Conserved(config, b) && i < |b.open|
    ensures 1 <= b.open[i].tradeId <= b.tradeCounter
    ensures forall k | 0 <= k < |b.open| && b.open[k].tradeId == b.open[i].tradeId :: k == i
    ensures forall k | 0 <= k < |b.closed| :: b.closed[k].trade.tradeId != b.open[i].tradeId
  {
    hide OpenIds, ClosedIds, Events, Pnls, SumBy;
    var id := b.open[i].tradeId;
    OpenIdsHas(b.open, i);
    NumbersAreDistinct(b.tradeCounter, id);
    forall k | 0 <= k < |b.open| && b.open[k].tradeId == id ensures k == i {
      if k != i {
        OpenIdsCount(b.open, MinInt(i, k), MaxInt(i, k));
      }
    }
    forall k | 0 <= k < |b.closed| ensures b.closed[k].trade.tradeId != id {
      ClosedIdsHas(b.closed, k);
    }
  }

  /** As many trades as openings. */
  lemma OneTradePerOpening(config: RunConfig, rows: seq<RawFunding>, bars: seq<Snapshot>,
                           candidates: seq<Option<SignalCandidate>>)
    requires |bars| == |candidates| && Final(config, rows, bars, candidates).Ok?
    ensures |Final(config, rows, bars, candidates).value.closed| == |Final(config, rows, bars, candidates).value.opens|
  {
    hide Final;
    FinalConserves(config, rows, bars, candidates);
    var b := Final(config, rows, bars, candidates).value;
    ClosedIdsCount(b.closed);
    NumbersAreDistinct(|b.opens|, 0);
  }
}
