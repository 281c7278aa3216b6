/** Where the entries of the books come from: the case analysis every whole-run proof starts with. */
module LedgerShape {
  import opened Prelude
  import opened Models
  import opened Funding
  import opened RuntimeLimits
  import opened Ledger

  /** Every position that survives a bar, and every trade closed at it, comes from one open position. */
  lemma {:induction false} SweepSources(config: RunConfig, rows: seq<RawFunding>, open: seq<Record>, s: Snapshot,
                                        n: nat)
    requires n <= |open| && Sweep(config, rows, open, s, n).Ok?
    ensures var swept := Sweep(config, rows, open, s, n).value;
            && (forall k | 0 <= k < |swept.remaining| ::
                  exists i | 0 <= i < n :: StepRecord(config, rows, open[i], s) == Ok(Kept(swept.remaining[k])))
            && (forall k | 0 <= k < |swept.closed| ::
                  exists i | 0 <= i < n :: StepRecord(config, rows, open[i], s) == Ok(Settled(swept.closed[k])))
  {
    hide StepRecord;
    if n > 0 {
      SweepSources(config, rows, open, s, n - 1);
      assert StepRecord(config, rows, open[n - 1], s).Ok?;
    }
  }

  lemma {:induction false} ForceSources(config: RunConfig, rows: seq<RawFunding>, open: seq<Record>, now: int,
                                        price: real, n: nat)
    requires n <= |open| && ForceClosedAll(config, rows, open, now, price, n).Ok?
    ensures var closed := ForceClosedAll(config, rows, open, now, price, n).value;
            |closed| == n && forall k | 0 <= k < n :: ForceClosed(config, rows, open[k], now, price) == Ok(closed[k])
  {
    hide ForceClosed;
    if n > 0 {
      ForceSources(config, rows, open, now, price, n - 1);
    }
  }

  /** A bar first closes, then decides; only the equity point is added after that. */
  lemma StepShape(config: RunConfig, rows: seq<RawFunding>, b: Books, s: Snapshot, candidate: Option<SignalCandidate>)
    returns (swept: Swept, mid: Books, decided: Decided)
    requires Step(config, rows, b, s, candidate).Ok?
    ensures Sweep(config, rows, b.open, s, |b.open|) == Ok(swept)
    ensures mid == Booked(b, swept.closed).(open := swept.remaining)
    ensures Decide(config, mid, s.timestamp, candidate) == Ok(decided)
    ensures Step(config, rows, b, s, candidate).value
         == Decided(decided.books.(curve := b.curve + [EquityPoint(s.timestamp, mid.equity)]), decided.decision)
  {
    hide Sweep, Gated, NewRecord, Booked;
    swept := Sweep(config, rows, b.open, s, |b.open|).value;
    mid := AfterClosing(config, rows, b, s).value;
    decided := Decide(config, mid, s.timestamp, candidate).value;
    BookedKeeps(b, swept.closed);
  }

  lemma BookedKeeps(b: Books, closed: seq<ClosedTradeRecord>)
    ensures var b' := Booked(b, closed);
            b'.open == b.open && b'.opens == b.opens && b'.curve == b.curve && b'.levels == b.levels
            && b'.signalCounter == b.signalCounter && b'.positionCounter == b.positionCounter
            && b'.tradeCounter == b.tradeCounter
  {
  }

  /** A decision either leaves positions alone or appends exactly one that passed both gates. */
  lemma DecideShape(config: RunConfig, b: Books, now: int, candidate: Option<SignalCandidate>)
    requires Decide(config, b, now, candidate).Ok?
    ensures var d := Decide(config, b, now, candidate).value;
            && d.books.closed == b.closed && d.books.events == b.events && d.books.equity == b.equity
            && d.books.curve == b.curve
            && (d.decision.Executed? ==>
                  && var gate := Gated(config, b, now, candidate);
                  && gate.Pass?
                  && var record := NewRecord(config, b, now, gate.candidate, gate.size, gate.leverage);
                  && record.Ok?
                  && d.books.open == b.open + [record.value] && d.books.opens == b.opens + [now]
                  && d.books.tradeCounter == b.tradeCounter + 1)
            && (!d.decision.Executed? ==>
                  d.books.open == b.open && d.books.opens == b.opens && d.books.tradeCounter == b.tradeCounter)
  {
    hide Gated, NewRecord;
  }

  /** A candidate that passes did so against the runtime state and the books it was shown. */
  lemma PassShape(config: RunConfig, b: Books, now: int, candidate: Option<SignalCandidate>)
    requires Gated(config, b, now, candidate).Pass?
    ensures candidate.Some?
    ensures var gate := Gated(config, b, now, candidate);
            var runtime := Runtime(now, b.opens, b.closed, b.events, config.StartingEquity());
            && gate.candidate == candidate.value.(signalId := b.signalCounter + 1)
            && Governance.PassesGates(config.governance, runtime.ForGovernance(), candidate.value.timestamp)
            && RiskEngine.Evaluate(config.risk, runtime.ForRisk(), Governance.ToExecutable(gate.candidate), b.equity,
                                   |b.open|)
               == RiskEngine.Allowed(gate.size, gate.leverage)
  {
    hide Runtime, Governance.PassesGates, RiskEngine.Evaluate, Governance.ToExecutable;
  }

  /** The last bar of a run, taken apart from the bars before it. */
  lemma RunStep(config: RunConfig, rows: seq<RawFunding>, bars: seq<Snapshot>,
                candidates: seq<Option<SignalCandidate>>, n: nat)
    requires 0 < n <= |bars| == |candidates|
    requires Run(config, rows, bars, candidates, n).Ok?
    ensures Run(config, rows, bars, candidates, n - 1).Ok?
    ensures Step(config, rows, Run(config, rows, bars, candidates, n - 1).value, bars[n - 1], candidates[n - 1]).Ok?
    ensures Run(config, rows, bars, candidates, n).value
         == Step(config, rows, Run(config, rows, bars, candidates, n - 1).value, bars[n - 1],
                 candidates[n - 1]).value.books
  {
    hide Step;
  }
}
