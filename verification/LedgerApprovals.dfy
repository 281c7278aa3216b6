/**
 The memory of accepted levels in a run: the levels the ledger carries are the window over all approvals of
 the run, and positions opened close in time stand at levels that are apart.
 */
module LedgerApprovals {
  import opened Prelude
  import opened Models
  import opened Funding
  import opened RuntimeLimits
  import opened Ledger
  import opened LedgerShape
  import opened LedgerSettlement
  import opened LedgerRuns
  import opened GovernanceRuns
  import Governance
  import LedgerTrades

  // ---------------------------------------------------------------- what governance was asked

  /** The approvals of a run so far, and for every opening the number of the approval it followed. */
  datatype Asked = Asked(history: History, ordinals: seq<nat>)

  const NOTHING_ASKED := Asked(History([], [], None), [])

  /** The call to governance that a candidate leads to. */
  function CallFor(config: RunConfig, b: Books, now: int, c: SignalCandidate): Call {
    Call(c.timestamp, c.entryReference,
         Runtime(now, b.opens, b.closed, b.events, config.StartingEquity()).ForGovernance())
  }

  /** One decision on the books of a bar after its closings. */
  function AskedOn(config: RunConfig, a: Asked, b: Books, now: int, candidate: Option<SignalCandidate>): Asked {
    if candidate.None? then a
    else
      Asked(Next(config.governance, a.history, CallFor(config, b, now, candidate.value)),
            if Gated(config, b, now, candidate).Pass? then a.ordinals + [|a.history.approvals|] else a.ordinals)
  }

  function AskedInBar(config: RunConfig, rows: seq<RawFunding>, a: Asked, b: Books, s: Snapshot,
                      candidate: Option<SignalCandidate>): Asked {
    match AfterClosing(config, rows, b, s)
    case Err(_) => a
    case Ok(mid) => AskedOn(config, a, mid, s.timestamp, candidate)
  }

  function AskedInRun(config: RunConfig, rows: seq<RawFunding>, bars: seq<Snapshot>,
                      candidates: seq<Option<SignalCandidate>>, n: nat): Asked
    requires n <= |bars| == |candidates|
  {
    if n == 0 then NOTHING_ASKED
    else
      var before := AskedInRun(config, rows, bars, candidates, n - 1);
      match Run(config, rows, bars, candidates, n - 1)
      case Err(_) => before
      case Ok(b) => AskedInBar(config, rows, before, b, bars[n - 1], candidates[n - 1])
  }

  // ---------------------------------------------------------------- what holds at every bar

  /** The number of its approval leads from an opening to a level accepted at that moment. */
  ghost predicate OrdinalsLead(a: Asked, opens: seq<int>) {
    && |a.ordinals| == |opens|
    && (forall k | 0 <= k < |a.ordinals| ::
          a.ordinals[k] < |a.history.approvals| && a.history.approvals[a.ordinals[k]].at == opens[k])
    && (forall i, k | 0 <= i < k < |a.ordinals| :: a.ordinals[i] < a.ordinals[k])
  }

  /** The level accepted for the position with this number is the entry of its candidate. */
  ghost predicate AtItsLevel(a: Asked, id: nat, entry: real) {
    && 1 <= id <= |a.ordinals| && a.ordinals[id - 1] < |a.history.approvals|
    && a.history.approvals[a.ordinals[id - 1]].price == entry
  }

  ghost predicate AllAtTheirLevels(a: Asked, b: Books) {
    && (forall i | 0 <= i < |b.open| :: AtItsLevel(a, b.open[i].tradeId, b.open[i].candidate.entryReference))
    && (forall i | 0 <= i < |b.closed| ::
          AtItsLevel(a, b.closed[i].trade.tradeId, b.closed[i].candidate.entryReference))
  }

  ghost predicate Governed(config: RunConfig, a: Asked, b: Books) {
    && a.history.levels == b.levels && DequeIsWindow(a.history) && Spaced(config.governance, a.history.approvals)
    && OrdinalsLead(a, b.opens) && AllAtTheirLevels(a, b)
  }

  lemma NothingGoverned(config: RunConfig)
    ensures Governed(config, NOTHING_ASKED, Start(config))
  {
  }

  // ---------------------------------------------------------------- one bar

  /** What a decision does to the levels, and that it opens only what governance approved. */
  lemma DecisionAsks(config: RunConfig, b: Books, now: int, candidate: Option<SignalCandidate>)
    requires Decide(config, b, now, candidate).Ok?
    ensures var d := Decide(config, b, now, candidate).value;
            && (candidate.None? ==> d.books.levels == b.levels && !Gated(config, b, now, candidate).Pass?)
            && (candidate.Some? ==>
                  var call := CallFor(config, b, now, candidate.value);
                  var verdict := Governance.Evaluated(config.governance, b.levels, call.state, call.now, call.entry);
                  && d.books.levels == verdict.levels
                  && (Gated(config, b, now, candidate).Pass? ==>
                        && verdict.approved
                        && Gated(config, b, now, candidate).candidate.entryReference == call.entry))
            && (d.decision.Executed? <==> Gated(config, b, now, candidate).Pass?)
  {
    hide Governance.Evaluated, Runtime, NewRecord;
  }

  lemma SweepKeepsLevels(config: RunConfig, rows: seq<RawFunding>, a: Asked, b: Books, s: Snapshot)
    requires AllAtTheirLevels(a, b) && AllBalanced(config, b.open) && Sweep(config, rows, b.open, s, |b.open|).Ok?
    ensures var swept := Sweep(config, rows, b.open, s, |b.open|).value;
            AllAtTheirLevels(a, Booked(b, swept.closed).(open := swept.remaining))
  {
    hide StepRecord, Sweep, Balanced, Booked, AtItsLevel;
    var swept := Sweep(config, rows, b.open, s, |b.open|).value;
    SweepSources(config, rows, b.open, s, |b.open|);
    BookedCloses(b, swept.closed);
    forall i | 0 <= i < |b.open| && StepRecord(config, rows, b.open[i], s).Ok?
      ensures var outcome := StepRecord(config, rows, b.open[i], s).value;
              && (outcome.Kept? ==> AtItsLevel(a, outcome.record.tradeId, outcome.record.candidate.entryReference))
              && (outcome.Settled? ==>
                    AtItsLevel(a, outcome.closed.trade.tradeId, outcome.closed.candidate.entryReference))
    {
      StepKeepsIdentity(config, rows, b.open[i], s);
    }
  }

  /** Later approvals and openings leave the earlier ones where they are. */
  lemma LevelStays(a: Asked, a': Asked, id: nat, entry: real)
    requires AtItsLevel(a, id, entry)
    requires |a.ordinals| <= |a'.ordinals| && a'.ordinals[..|a.ordinals|] == a.ordinals
    requires |a.history.approvals| <= |a'.history.approvals|
             && a'.history.approvals[..|a.history.approvals|] == a.history.approvals
    ensures AtItsLevel(a', id, entry)
  {
    assert a'.ordinals[id - 1] == a.ordinals[id - 1];
    assert a'.history.approvals[a.ordinals[id - 1]] == a.history.approvals[a.ordinals[id - 1]];
  }

  lemma AskedGrows(config: RunConfig, a: Asked, b: Books, now: int, candidate: Option<SignalCandidate>)
    ensures var a' := AskedOn(config, a, b, now, candidate);
            && |a.ordinals| <= |a'.ordinals| && a'.ordinals[..|a.ordinals|] == a.ordinals
            && |a.history.approvals| <= |a'.history.approvals|
            && a'.history.approvals[..|a.history.approvals|] == a.history.approvals
  {
    hide Gated, Governance.Evaluated, Runtime, Governance.PassesGates;
  }

  lemma DecisionKeepsLevels(config: RunConfig, a: Asked, b: Books, now: int, candidate: Option<SignalCandidate>)
    requires Governed(config, a, b) && b.tradeCounter == |b.opens| && Decide(config, b, now, candidate).Ok?
    requires candidate.Some? ==> candidate.value.timestamp == now
    ensures var a', b' := AskedOn(config, a, b, now, candidate), Decide(config, b, now, candidate).value.books;
            OrdinalsLead(a', b'.opens) && AllAtTheirLevels(a', b')
  {
    hide Decide, Gated, Opened, Governance.Evaluated, Runtime, Governance.PassesGates, DequeIsWindow, Spaced;
    DecideShape(config, b, now, candidate);
    DecisionAsks(config, b, now, candidate);
    AskedGrows(config, a, b, now, candidate);
    var a', d := AskedOn(config, a, b, now, candidate), Decide(config, b, now, candidate).value;
    var gate := Gated(config, b, now, candidate);
    if d.decision.Executed? {
      NewRecordId(config, b, now, gate.candidate, gate.size, gate.leverage);
      hide NewRecord;
      assert a'.history.approvals == a.history.approvals + [Governance.Level(now, candidate.value.entryReference)];
      assert a'.ordinals == a.ordinals + [|a.history.approvals|];
    } else {
      assert a'.ordinals == a.ordinals;
    }
    hide AskedOn, AtItsLevel, NewRecord;
    forall i | 0 <= i < |b.open| ensures AtItsLevel(a', b.open[i].tradeId, b.open[i].candidate.entryReference) {
      LevelStays(a, a', b.open[i].tradeId, b.open[i].candidate.entryReference);
    }
    forall i | 0 <= i < |b.closed|
      ensures AtItsLevel(a', b.closed[i].trade.tradeId, b.closed[i].candidate.entryReference)
    {
      LevelStays(a, a', b.closed[i].trade.tradeId, b.closed[i].candidate.entryReference);
    }
  }

  lemma DecisionIsGoverned(config: RunConfig, a: Asked, b: Books, now: int, candidate: Option<SignalCandidate>)
    requires Governed(config, a, b) && b.tradeCounter == |b.opens| && Decide(config, b, now, candidate).Ok?
    requires candidate.Some? ==> candidate.value.timestamp == now
    requires config.governance.duplicateLevelWindowHours >= 0 && TimesUpTo(a.history, now, config.governance)
    ensures var a', b' := AskedOn(config, a, b, now, candidate), Decide(config, b, now, candidate).value.books;
            Governed(config, a', b') && TimesUpTo(a'.history, now, config.governance)
  {
    hide Decide, Gated, Governance.Evaluated, Runtime, Governance.PassesGates, DequeIsWindow, Spaced, TimesUpTo;
    DecisionAsks(config, b, now, candidate);
    DecisionKeepsLevels(config, a, b, now, candidate);
    if candidate.Some? {
      NextKeeps(config.governance, a.history, CallFor(config, b, now, candidate.value));
    }
    hide OrdinalsLead, AllAtTheirLevels;
  }

  lemma BarIsGoverned(config: RunConfig, rows: seq<RawFunding>, a: Asked, b: Books, s: Snapshot,
                      candidate: Option<SignalCandidate>)
    requires Governed(config, a, b) && AllBalanced(config, b.open) && b.tradeCounter == |b.opens|
    requires candidate.Some? ==> candidate.value.timestamp == s.timestamp
    requires config.governance.duplicateLevelWindowHours >= 0 && TimesUpTo(a.history, s.timestamp, config.governance)
    requires Step(config, rows, b, s, candidate).Ok?
    ensures var a', b' := AskedInBar(config, rows, a, b, s, candidate), Step(config, rows, b, s, candidate).value.books;
            Governed(config, a', b') && TimesUpTo(a'.history, s.timestamp, config.governance)
  {
    hide Sweep, Booked, Decide, Balanced, AskedOn, DequeIsWindow, Spaced, TimesUpTo, OrdinalsLead, AtItsLevel;
    var swept, mid, decided := StepShape(config, rows, b, s, candidate);
    hide Step;
    BookedKeeps(b, swept.closed);
    SweepKeepsLevels(config, rows, a, b, s);
    DecisionIsGoverned(config, a, mid, s.timestamp, candidate);
  }

  // ---------------------------------------------------------------- whole runs

  /** At every bar of every run over bars in time order the ledger's levels are the window over all approvals of the
      run, approvals in the window are apart, and every position stands at the level approved for it. */
  lemma {:induction false} RunIsGoverned(config: RunConfig, rows: seq<RawFunding>, bars: seq<Snapshot>,
                                         candidates: seq<Option<SignalCandidate>>, n: nat)
    requires n <= |bars| == |candidates| && Run(config, rows, bars, candidates, n).Ok?
    requires LedgerTrades.InOrder(bars) && LedgerTrades.WellPlacedCandidates(bars, candidates)
    requires config.governance.duplicateLevelWindowHours >= 0
    ensures Governed(config, AskedInRun(config, rows, bars, candidates, n),
                     Run(config, rows, bars, candidates, n).value)
    ensures n > 0 ==>
              TimesUpTo(AskedInRun(config, rows, bars, candidates, n).history, bars[n - 1].timestamp, config.governance)
    ensures n == 0 ==> AskedInRun(config, rows, bars, candidates, n) == NOTHING_ASKED
  {
    hide Step, AskedInBar, Governed, AllBalanced, TradesTell, TimesUpTo;
    if n == 0 {
      NothingGoverned(config);
    } else {
      RunStep(config, rows, bars, candidates, n);
      RunIsGoverned(config, rows, bars, candidates, n - 1);
      RunTells(config, rows, bars, candidates, n - 1);
      RunConserves(config, rows, bars, candidates, n - 1);
      var b, a := Run(config, rows, bars, candidates, n - 1).value, AskedInRun(config, rows, bars, candidates, n - 1);
      if n > 1 {
        TimesAdvance(config.governance, a.history, bars[n - 2].timestamp, bars[n - 1].timestamp);
      } else {
        NothingLate(config, bars[0].timestamp);
      }
      BarIsGoverned(config, rows, a, b, bars[n - 1], candidates[n - 1]);
    }
  }

  lemma NothingLate(config: RunConfig, now: int)
    ensures TimesUpTo(NOTHING_ASKED.history, now, config.governance)
  {
  }

  /** Two positions of a run, by the numbers of their openings: opened within the window of each other, and with at
      most 200 approvals from one to the other, they stand at levels that are apart. */
  lemma OpeningsAreSpaced(config: RunConfig, a: Asked, b: Books, i: nat, j: nat, first: real, second: real)
    requires Governed(config, a, b) && AtItsLevel(a, i, first) && AtItsLevel(a, j, second) && i < j
    requires b.opens[j - 1] - b.opens[i - 1] <= Governance.Window(config.governance)
    requires a.ordinals[j - 1] - a.ordinals[i - 1] <= Governance.MAX_LEVELS
    ensures !Governance.TooClose(config.governance, first, second)
  {
    hide Governance.TooClose, DequeIsWindow, AllAtTheirLevels, Governance.Window;
  }

  /** Two trades, the later of which was entered at a level apart from the earlier one if they were opened within the
      window of each other, unless more than 200 levels were approved from one to the other. */
  ghost predicate Apart(config: RunConfig, a: Asked, earlier: ClosedTradeRecord, later: ClosedTradeRecord) {
    var i, j := earlier.trade.tradeId, later.trade.tradeId;
    && 1 <= i <= |a.ordinals| && 1 <= j <= |a.ordinals|
    && (i < j && later.trade.openedAt - earlier.trade.openedAt <= Governance.Window(config.governance)
        && a.ordinals[j - 1] - a.ordinals[i - 1] <= Governance.MAX_LEVELS ==>
          !Governance.TooClose(config.governance, earlier.candidate.entryReference, later.candidate.entryReference))
  }

  lemma GovernedTradesAreApart(config: RunConfig, a: Asked, b: Books, earlier: ClosedTradeRecord,
                               later: ClosedTradeRecord)
    requires Governed(config, a, b)
    requires AtItsLevel(a, earlier.trade.tradeId, earlier.candidate.entryReference)
    requires AtItsLevel(a, later.trade.tradeId, later.candidate.entryReference)
    requires OpenedThen(b.opens, earlier.trade.tradeId, earlier.trade.openedAt)
    requires OpenedThen(b.opens, later.trade.tradeId, later.trade.openedAt)
    ensures Apart(config, a, earlier, later)
  {
    hide Governance.TooClose, Governance.Window, Governed;
    var i, j := earlier.trade.tradeId, later.trade.tradeId;
    if i < j && later.trade.openedAt - earlier.trade.openedAt <= Governance.Window(config.governance)
       && a.ordinals[j - 1] - a.ordinals[i - 1] <= Governance.MAX_LEVELS {
      OpeningsAreSpaced(config, a, b, i, j, earlier.candidate.entryReference, later.candidate.entryReference);
    }
  }

  /** Over every finished run over bars in time order, any two of its trades are apart in this sense. */
  lemma TradesAreSpaced(config: RunConfig, rows: seq<RawFunding>, bars: seq<Snapshot>,
                        candidates: seq<Option<SignalCandidate>>, end: Books, i: nat, j: nat)
    requires |bars| == |candidates| && Final(config, rows, bars, candidates) == Ok(end)
    requires LedgerTrades.InOrder(bars) && LedgerTrades.WellPlacedCandidates(bars, candidates)
    requires config.governance.duplicateLevelWindowHours >= 0
    requires i < |end.closed| && j < |end.closed|
    ensures Apart(config, AskedInRun(config, rows, bars, candidates, |bars|), end.closed[i], end.closed[j])
  {
    assert Run(config, rows, bars, candidates, |bars|).Ok?;
    hide Final, Governed, Apart, AtItsLevel, OpenedThen, AllBalanced, TradesTell, Run;
    RunIsGoverned(config, rows, bars, candidates, |bars|);
    RunTells(config, rows, bars, candidates, |bars|);
    FinalConserves(config, rows, bars, candidates);
    var a, b := AskedInRun(config, rows, bars, candidates, |bars|), Run(config, rows, bars, candidates, |bars|).value;
    GovernedLevels(config, a, b);
    FinalAtTheirLevels(config, rows, bars, candidates, a);
    GovernedTradesAreApart(config, a, b, end.closed[i], end.closed[j]);
  }

  lemma GovernedLevels(config: RunConfig, a: Asked, b: Books)
    requires Governed(config, a, b)
    ensures AllAtTheirLevels(a, b)
  {
  }

  lemma FinalAtTheirLevels(config: RunConfig, rows: seq<RawFunding>, bars: seq<Snapshot>,
                           candidates: seq<Option<SignalCandidate>>, a: Asked)
    requires |bars| == |candidates| && Final(config, rows, bars, candidates).Ok?
    requires Run(config, rows, bars, candidates, |bars|).Ok?
    requires AllBalanced(config, Run(config, rows, bars, candidates, |bars|).value.open)
    requires AllAtTheirLevels(a, Run(config, rows, bars, candidates, |bars|).value)
    ensures AllAtTheirLevels(a, Final(config, rows, bars, candidates).value.(open := []))
    ensures Final(config, rows, bars, candidates).value.opens == Run(config, rows, bars, candidates, |bars|).value.opens
  {
    hide Run, Balanced, ForceClosedAll, ForceClosed, Booked, AtItsLevel;
    var b := Run(config, rows, bars, candidates, |bars|).value;
    if |bars| > 0 && |b.open| > 0 {
      var last := bars[|bars| - 1];
      var closed := ForceClosedAll(config, rows, b.open, last.timestamp, last.price, |b.open|).value;
      ForceSources(config, rows, b.open, last.timestamp, last.price, |b.open|);
      BookedCloses(b, closed);
      BookedKeeps(b, closed);
      forall k | 0 <= k < |closed|
        ensures AtItsLevel(a, closed[k].trade.tradeId, closed[k].candidate.entryReference)
      {
        ForceClosedTells(config, rows, b.open[k], last.timestamp, last.price);
      }
    }
  }
}
