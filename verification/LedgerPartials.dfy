/**
 When each position of a run took its partial exit: read off the bars alone, it agrees with what the
 record of the position says, and it happens at most once.
 */
module LedgerPartials {
  import opened Prelude
  import opened Models
  import opened Funding
  import opened Ledger
  import opened LedgerShape
  import opened LedgerSettlement
  import opened LedgerRuns
  import FillModel

  /** Some open position with this number takes its partial exit at the bar. */
  ghost predicate PartialIn(config: RunConfig, rows: seq<RawFunding>, open: seq<Record>, s: Snapshot, id: nat) {
    exists i | 0 <= i < |open| :: open[i].tradeId == id && TakesPartial(config, rows, open[i], s)
  }

  /** Time of the last bar, among the first n, at which the position with this number took a partial exit. */
  ghost function Split(config: RunConfig, rows: seq<RawFunding>, bars: seq<Snapshot>,
                       candidates: seq<Option<SignalCandidate>>, n: nat, id: nat): Option<int>
    requires n <= |bars| == |candidates|
  {
    if n == 0 then None
    else
      match Run(config, rows, bars, candidates, n - 1)
      case Err(_) => None
      case Ok(b) =>
        if PartialIn(config, rows, b.open, bars[n - 1], id) then Some(bars[n - 1].timestamp)
        else Split(config, rows, bars, candidates, n - 1, id)
  }

  /** How the splits move on with one bar: what was closed keeps its own; an open position gets the bar's
      time if it takes its partial exit there. */
  ghost predicate SplitsAdvance(config: RunConfig, rows: seq<RawFunding>, b: Books, s: Snapshot,
                                split: nat -> Option<int>, next: nat -> Option<int>) {
    && (forall i | 0 <= i < |b.closed| :: next(b.closed[i].trade.tradeId) == split(b.closed[i].trade.tradeId))
    && (forall i | 0 <= i < |b.open| ::
          next(b.open[i].tradeId)
          == if TakesPartial(config, rows, b.open[i], s) then Some(s.timestamp) else SplitOf(b.open[i]))
  }

  ghost function Splits(config: RunConfig, rows: seq<RawFunding>, bars: seq<Snapshot>,
                        candidates: seq<Option<SignalCandidate>>, n: nat): nat -> Option<int>
    requires n <= |bars| == |candidates|
  {
    (id: nat) => Split(config, rows, bars, candidates, n, id)
  }

  ghost predicate OpenSplits(open: seq<Record>, split: nat -> Option<int>) {
    forall i | 0 <= i < |open| :: SplitOf(open[i]) == split(open[i].tradeId)
  }

  ghost predicate NoneBeyond(b: Books, split: nat -> Option<int>) {
    forall id: nat | id > b.tradeCounter :: split(id).None?
  }

  lemma PartialInIs(config: RunConfig, rows: seq<RawFunding>, b: Books, s: Snapshot, i: nat)
    requires Conserved(config, b) && i < |b.open|
    ensures PartialIn(config, rows, b.open, s, b.open[i].tradeId) <==> TakesPartial(config, rows, b.open[i], s)
  {
    hide Conserved, TakesPartial;
    OpenNumberIsItsOwn(config, b, i);
  }

  lemma NotPartialIn(config: RunConfig, rows: seq<RawFunding>, b: Books, s: Snapshot, id: nat)
    requires Conserved(config, b)
    requires id > b.tradeCounter || exists k | 0 <= k < |b.closed| :: b.closed[k].trade.tradeId == id
    ensures !PartialIn(config, rows, b.open, s, id)
  {
    hide Conserved, TakesPartial;
    forall i | 0 <= i < |b.open| ensures b.open[i].tradeId != id {
      OpenNumberIsItsOwn(config, b, i);
    }
  }

  /** The splits read off the bars are those the open records carry, and they advance bar by bar. */
  lemma {:induction false} RunSplits(config: RunConfig, rows: seq<RawFunding>, bars: seq<Snapshot>,
                                     candidates: seq<Option<SignalCandidate>>, n: nat)
    requires n <= |bars| == |candidates| && Run(config, rows, bars, candidates, n).Ok?
    ensures OpenSplits(Run(config, rows, bars, candidates, n).value.open, Splits(config, rows, bars, candidates, n))
    ensures NoneBeyond(Run(config, rows, bars, candidates, n).value, Splits(config, rows, bars, candidates, n))
    ensures n > 0 ==>
              && Run(config, rows, bars, candidates, n - 1).Ok?
              && SplitsAdvance(config, rows, Run(config, rows, bars, candidates, n - 1).value, bars[n - 1],
                               Splits(config, rows, bars, candidates, n - 1), Splits(config, rows, bars, candidates, n))
  {
    hide Step, TakesPartial, PartialIn, Conserved, AllBalanced, TradesTell, SplitOf;
    if n > 0 {
      RunStep(config, rows, bars, candidates, n);
      RunSplits(config, rows, bars, candidates, n - 1);
      RunConserves(config, rows, bars, candidates, n - 1);
      RunTells(config, rows, bars, candidates, n - 1);
      var b, s := Run(config, rows, bars, candidates, n - 1).value, bars[n - 1];
      var split, next := Splits(config, rows, bars, candidates, n - 1), Splits(config, rows, bars, candidates, n);
      forall id: nat
        ensures next(id) == if PartialIn(config, rows, b.open, s, id) then Some(s.timestamp) else split(id)
      {
      }
      hide Run, Split, Splits;
      SplitsDoAdvance(config, rows, b, s, split, next);
      BarSplits(config, rows, b, s, candidates[n - 1], split, next);
    }
  }

  lemma SplitsDoAdvance(config: RunConfig, rows: seq<RawFunding>, b: Books, s: Snapshot,
                        split: nat -> Option<int>, next: nat -> Option<int>)
    requires Conserved(config, b) && OpenSplits(b.open, split) && NoneBeyond(b, split)
    requires forall id: nat ::
             next(id) == if PartialIn(config, rows, b.open, s, id) then Some(s.timestamp) else split(id)
    ensures SplitsAdvance(config, rows, b, s, split, next) && NoneBeyond(b, next)
  {
    hide Conserved, TakesPartial, PartialIn, SplitOf;
    forall i | 0 <= i < |b.closed| ensures next(b.closed[i].trade.tradeId) == split(b.closed[i].trade.tradeId) {
      NotPartialIn(config, rows, b, s, b.closed[i].trade.tradeId);
    }
    forall i | 0 <= i < |b.open|
      ensures next(b.open[i].tradeId)
           == if TakesPartial(config, rows, b.open[i], s) then Some(s.timestamp) else SplitOf(b.open[i])
    {
      PartialInIs(config, rows, b, s, i);
    }
    forall id: nat | id > b.tradeCounter ensures next(id).None? {
      NotPartialIn(config, rows, b, s, id);
    }
  }

  lemma BarSplits(config: RunConfig, rows: seq<RawFunding>, b: Books, s: Snapshot, candidate: Option<SignalCandidate>,
                  split: nat -> Option<int>, next: nat -> Option<int>)
    requires AllBalanced(config, b.open) && SplitsAdvance(config, rows, b, s, split, next) && NoneBeyond(b, next)
    requires Step(config, rows, b, s, candidate).Ok?
    ensures OpenSplits(Step(config, rows, b, s, candidate).value.books.open, next)
    ensures NoneBeyond(Step(config, rows, b, s, candidate).value.books, next)
  {
    hide Sweep, Decide, Balanced, Gated, NewRecord, Booked, TakesPartial, StepRecord, SplitOf;
    var swept, mid, decided := StepShape(config, rows, b, s, candidate);
    hide Step;
    BookedKeeps(b, swept.closed);
    SweepSources(config, rows, b.open, s, |b.open|);
    forall i | 0 <= i < |b.open| && StepRecord(config, rows, b.open[i], s).Ok?
      ensures StepRecord(config, rows, b.open[i], s).value.Kept? ==>
                var r := StepRecord(config, rows, b.open[i], s).value.record; SplitOf(r) == next(r.tradeId)
    {
      StepTellsPartial(config, rows, b.open[i], s);
      StepKeepsIdentity(config, rows, b.open[i], s);
    }
    assert OpenSplits(swept.remaining, next);
    DecideShape(config, mid, s.timestamp, candidate);
    if decided.decision.Executed? {
      var gate := Gated(config, mid, s.timestamp, candidate);
      NewRecordId(config, mid, s.timestamp, gate.candidate, gate.size, gate.leverage);
      NewHasNoSplit(config, mid, s.timestamp, gate.candidate, gate.size, gate.leverage);
    }
  }

  lemma NewHasNoSplit(config: RunConfig, b: Books, now: int, c: SignalCandidate, size: real, leverage: int)
    requires NewRecord(config, b, now, c, size, leverage).Ok?
    ensures SplitOf(NewRecord(config, b, now, c, size, leverage).value).None?
  {
    hide FillModel.Simulate;
  }

  /** A position takes its partial exit at most once in a run: whichever bar it happened at, that is the split. */
  lemma {:induction false} SplitIsTheOnlyPartial(config: RunConfig, rows: seq<RawFunding>, bars: seq<Snapshot>,
                                                 candidates: seq<Option<SignalCandidate>>, n: nat, m: nat, id: nat)
    requires m < n <= |bars| == |candidates| && Run(config, rows, bars, candidates, n).Ok?
    requires Run(config, rows, bars, candidates, m).Ok?
    requires PartialIn(config, rows, Run(config, rows, bars, candidates, m).value.open, bars[m], id)
    ensures Split(config, rows, bars, candidates, n, id) == Some(bars[m].timestamp)
  {
    hide Step, TakesPartial, PartialIn, Conserved, AllBalanced, TradesTell;
    RunStep(config, rows, bars, candidates, n);
    if m < n - 1 {
      SplitIsTheOnlyPartial(config, rows, bars, candidates, n - 1, m, id);
      RunSplits(config, rows, bars, candidates, n - 1);
      RunTells(config, rows, bars, candidates, n - 1);
      var b := Run(config, rows, bars, candidates, n - 1).value;
      hide Run;
      NoSecondPartial(config, rows, b.open, bars[n - 1], id, Splits(config, rows, bars, candidates, n - 1));
    }
  }

  lemma NoSecondPartial(config: RunConfig, rows: seq<RawFunding>, open: seq<Record>, s: Snapshot, id: nat,
                        split: nat -> Option<int>)
    requires AllBalanced(config, open) && OpenSplits(open, split) && split(id).Some?
    ensures !PartialIn(config, rows, open, s, id)
  {
    hide Balanced, Exit, Marked;
    forall i | 0 <= i < |open| && open[i].tradeId == id ensures !TakesPartial(config, rows, open[i], s) {
      MarkedKeeps(config, rows, open[i], s);
      if TakesPartial(config, rows, open[i], s) {
        PartialNeedsNone(config, Marked(config, rows, open[i], s), s);
      }
    }
  }

  lemma PartialNeedsNone(config: RunConfig, r: Record, s: Snapshot)
    requires Balanced(config, r) && Exit(config, r, s).reason == Some(TakeProfitPartial)
    ensures !r.partialExitDone
  {
    PartialOnlyOnce(config, r, s);
  }
}
