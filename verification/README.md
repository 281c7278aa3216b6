# Verified model of the backtest trading ledger and its decision pipeline

This project models, in Dafny, the research backtester of a trading bot and proves what its
documentation and tests rely on. `dafny verify dfyconfig.toml` checks everything. Prices, sizes and
money are exact reals; moments are whole microseconds since the epoch (milliseconds where an exchange
row carries them).

How the modules follow the program:

- **One position.** `FillModel`, `Funding`, `RiskEngine` and `SignalEngine` compute fills, funding,
  sizes, exits and candidates. `Ledger` says what one bar does to one open position and to the whole
  ledger: positions open, closed trades, opening times, profit events, equity and curve. It is the
  specification of `BacktestRunner`, which has the source's own form: a class whose methods update the
  record fields and the lists in loops. Each method is proved to take the state to the specified next
  state, errors included.
- **Whole runs.** `LedgerSettlement`, `LossBound`, `LedgerPartials`, `LedgerRuns`, `LedgerTrades` and
  `LedgerGates` prove conservation, the ratchet of the stop, the loss bound, exact funding, caps and
  cooldowns over every run that ends without an error. `LedgerLives` tells the life of every position by
  the bars alone: why it is still open and where its stop is, or which bar closed it, at what price and
  with what result; `LedgerReports` what each trade reports of them. The candidate of each bar is an
  arbitrary input there. `LedgerFills` proves when a run cannot fail, and `LedgerApprovals` that its
  entries are spaced. The loss bound, the safety of openings and the spacing ask that a candidate
  carries the time of its bar and a stop on its losing side; the candidates of the plain, the
  instrumented and the research runner always do, and `RunGuarantees` states everything once for these
  three, from settings and bars alone; `ReplayedRuns` does so for what the replay loads. `Governance`
  and `GovernanceRuns` treat the bounded memory of accepted levels; `Performance` and `RuntimeLimits`
  the drawdown, streak and summary loops.
- **Instrumented and research runs.** `Funnel` compares the candidate sources and counters,
  `FunnelExamples` shows two concrete runs whose counters do not add up, and `ResearchRunner` models the
  duplicated main loop.
- **Windows, lookups, paging, buckets.** `EqualLevels`, `FeatureWindows`, `ReplayLoader`, `ReplayRange`,
  `MarketData`, `Buckets`, `HourlyBuckets` and `HourlyHistory` each prove a fast or incremental form
  equal to a plain one over the full history, or exactly when it is.
- **Selection.** `Pareto`, `WalkForward`, `Autoresearch` and `CandidateVectors`.
- `Prelude`, `RealArith`, `Sorting`, `Dedupe`, `Timeline`, `Calendar` and `Models` hold shared types and
  lemmas.

Where the code does not do what one would expect, the code is modelled as it is, the exact condition is
proved, and a lemma gives a concrete input:

- the effective exit price reproduces the money of both legs only from a size of 1e-8 up
  (`LedgerSettlement.EffectivePriceConserves`, `TinyPositionExample`);
- the counters of an instrumented runner are never reset, so those of a second run on it add up only if
  the first made no trade (`Funnel.RerunBalancesIff`, `FunnelExamples.RerunExample`); a runner made for
  one run, as `run_backtest_with_funnel` makes it, always adds up (`Funnel.FunnelBalances`);
- the research runner's counters fail to add up on bars that the overlay buys and the signal engine
  shorts, which takes a whitelist that allows shorts in an uptrend; none of the settings does
  (`Funnel.ResearchFunnelBalancesIff`, `BothCandidatesIff`, `ShippedWhitelistsBalance`,
  `FunnelExamples.FunnelOffExample`);
- a divergence window or bar requirement above 500 silences the divergence flags
  (`FeatureWindows.CvdFlagsAgreeIff`, `BeyondCapExample`);
- loading trades or funding from a moment inside a millisecond can return a row stamped before it
  (`MarketData.StrayMeaning`, `StrayExample`, `LoadsEveryFundingRowOnce`, `FundingStrayExample`);
- the history loader's paging by time loses trades when a full page ends inside a millisecond
  (`HourlyBuckets.PagingIsComplete`, `HourlyHistory.LostTradeExample`), and buckets that straddle an hour
  keep one hour only (`HourlyHistory.MisalignedStartExample`); otherwise the history is right
  (`HourlyHistory.HourlyEqualsOnePassIff`);
- replay shows hourly and four-hourly bars before they have closed (`ReplayLoader.UnfinishedBarShown`,
  `UnfinishedBarExample`), fewer bars than its lookback when the recording has gaps
  (`ReplayRange.SnapshotIsWholeIff`, `GapExample`), and, with no lookback configured, not the bar that was
  open at the start (`ReplayRange.BarsReplayedIff`);
- window building has no end without a positive step once a window fits (`WalkForward.StuckWithoutStep`,
  `StuckExample`).

Conditions the main theorems name, each of which a caller can check before the run. That it ends without
an error: a supported order type, entry slippage under 100 percent, positive bars, and positive entries
and long targets (`LedgerFills.FinalSucceeds`). For funding, bar times that never fall, and for the safety
of openings, bar times that rise, as those of a replay do (`ReplayedRuns.ReplayIsSound`). For the loss
bound, slippage between 0 and 10 000 basis points and candles with low <= close <= high, and for exits at
a target or after a partial exit a minimum reward-to-risk of at least zero. For the spacing of approvals,
a window of at least zero hours.

## Model

| member | source | states |
|---|---|---|
| `LedgerRuns.FinalConserves` | backtest/backtest_runner.py:164-248 | Over every snapshot stream whose run ends without an error: nothing stays open, the closed trades are exactly the positions opened (each number once, and with the time at which the position of that number was opened), and the final equity is the starting equity plus the sum of all net results; the event log mirrors the trades and the curve ends at that equity |
| `LedgerRuns.OneTradePerOpening` | backtest/backtest_runner.py:216-228 | As many closed trades as openings, over every finished run |
| `LedgerRuns.RunConserves` | backtest/backtest_runner.py:164-230 | The same conservation in the middle of a run: open and closed positions together are exactly those ever opened, none lost or doubled, each with its own opening time |
| `LedgerRuns.SweepKeepsIds` | backtest/backtest_runner.py:453-601 | One pass over the open positions moves each to the remaining list or to the closed list, never to both or neither |
| `LedgerRuns.ForceKeepsIds` | backtest/backtest_runner.py:649-734 | The closing sweep at the end turns every open position into one trade |
| `LedgerRuns.RunTells` | backtest/backtest_runner.py:164-230 | At every point of every run all open positions balance and every closed trade reports the money of both legs |
| `LedgerSettlement.OpenedIsBalanced` | backtest/backtest_runner.py:380-420 | A freshly opened record balances: quantities, money, stop and entry fee |
| `LedgerSettlement.StepKeepsBalance` | backtest/backtest_runner.py:455-595 | Every bar keeps sold quantity + open size = initial size and the realized profit and fees in step with what was sold; the branch at line 519 that would drop a record without a trade cannot be reached |
| `LedgerSettlement.PartialOnlyOnce` | core/risk_engine.py:100-120 | A partial exit happens only before any other, at the first target, and sells strictly between nothing and everything |
| `LedgerSettlement.ReducedIsBalanced` | backtest/backtest_runner.py:502-517 | The field updates of the partial exit keep the position balanced |
| `LedgerSettlement.SettledFromNotional` | backtest/backtest_runner.py:532-580 | Gross profit and fees of the trade written are those of the summed exit notional of both legs, and the exit price is that notional over the guarded quantity |
| `LedgerSettlement.EffectivePriceConserves` | backtest/backtest_runner.py:542-560 | For both directions, profit recomputed from the effective exit price times the initial size equals the sum of the leg profits exactly when the size is at least 1e-8 (below it the divisor guard distorts it); then the fees agree too |
| `LedgerSettlement.TinyPositionExample` | backtest/backtest_runner.py:542-548 | A concrete position of a billionth of a unit whose trade does not reproduce its profit |
| `LedgerSettlement.RMultipleTellsTheRisk` | backtest/backtest_runner.py:556-557 | The R multiple times what the initial stop put at risk is the net result, unless that risk is below the guard |
| `LedgerSettlement.TrailingLegFloor` | backtest/backtest_runner.py:482-523 | Closing at the trailing stop gives back at most the exit slippage on the entry notional of what was still open; the sold part keeps its profit |
| `LedgerSettlement.StopRatchets` | backtest/backtest_runner.py:603-627 | After the partial exit the stop never moves against the trader, stays at or beyond the filled entry, and nothing more is sold while the position is open |
| `LedgerGates.SamePositionRatchets` | backtest/backtest_runner.py:453-601 | The same between any two bars of a run: a position open at both has ratcheted in between |
| `LedgerGates.RunRatchets` | backtest/backtest_runner.py:164-230 | Every position open at a later bar and numbered before it has a source at the earlier bar from which it ratcheted |
| `LedgerLives.RunOnCue` | backtest/backtest_runner.py:164-230 | Told by the bars alone, at every bar of every run over positive bars with rising times: a position is open because no bar since its opening touched its stop or target or found its holding time up, or because a bar sold part of it at the target and none since touched its trailing stop or found the time up; its stop is the initial one, or the filled entry or the configured multiple of the average range behind the best price since the partial exit, whichever is better; each trade was closed by the first bar that called for it, and made what its legs make at the stop, the target or the close, less fees and funding |
| `LedgerLives.FinalOnCue` | backtest/backtest_runner.py:126-252 | The same over finished runs; a trade closed by the end of the backtest is one that no bar had closed before |
| `LedgerLives.StepOnCue` | backtest/backtest_runner.py:453-601 | One bar keeps exactly the positions it gives no reason to close, and closes the others at the price and for the reason the bar gives |
| `LedgerLives.MarkedTrails` | backtest/backtest_runner.py:603-627 | After any number of bars since the partial exit the stop of a long is the larger of its filled entry and the highest high since then less max(multiple, 0) times max(average range, 1e-8), that of a short mirrored with the lowest low |
| `LedgerLives.NewAsSignalled` | backtest/backtest_runner.py:366-420 | Entry, stop and target of a new position are those of the candidate, the entry worse by the slippage of its order type |
| `LedgerLives.SettledLegs` | backtest/backtest_runner.py:525-580 | What a trade makes before costs is what its legs make: all at the last price, or the configured share at the first target and the rest at the last price; the fees are those of its order types |
| `LedgerReports.FinalReports` | backtest/backtest_runner.py:126-252 | Over every finished run over bars with rising times and candles: at every bar of its life, and no other, a trade would have lost at most its adverse excursion at the worst price and gained at most its favourable one at the best, and some bar (or the last price, for a trade closed by the end) reached each; its slippage is the average over its entry and its one or two exits |
| `LedgerReports.RunReports` | backtest/backtest_runner.py:164-230 | The same at every bar of a run, and open positions carry exactly the candles seen since their opening |
| `LedgerReports.PathRises` | backtest/backtest_runner.py:930-942 | A path takes a candle exactly when it is newer than all in it, and stays in order |
| `LedgerReports.StandInCandle` | backtest/backtest_runner.py:629-657 | Without a candle, and at the end of the run, a flat candle of a quarter of an hour at the price stands in |
| `LedgerReports.RunNumbers` | backtest/backtest_runner.py:205-228 | After any number of bars as many signals were numbered as candidates came, and as many positions and trades as openings |
| `LedgerReports.NewNumbers` | backtest/backtest_runner.py:366-420 | A new position carries the next number of each |
| `LedgerReports.StartsEmpty` | backtest/backtest_runner.py:126-163 | A run starts with the configured equity, kept above the guard, and with nothing open, closed or remembered |
| `LedgerSettlement.AccrualExtends` | backtest/backtest_runner.py:736-761 | Accruing up to a bar extends the interval charged so far without gap or overlap |
| `LedgerSettlement.StepKeepsFunding` | backtest/backtest_runner.py:456-461 | After every bar, funding paid is exactly what the samples of the holding interval owe: at full size if no partial exit was taken, else at full size up to and including the bar of the partial exit and at the remaining size after it; a trade closed at the bar was charged so |
| `LedgerTrades.RunCharges` | backtest/backtest_runner.py:164-230 | The same at every bar of every run in time order, for open positions and closed trades, each split at the bar of its own partial exit and nowhere else |
| `LedgerTrades.FinalCharges` | backtest/backtest_runner.py:649-712 | Every trade of a finished run was charged for exactly the samples of its own holding interval, in two phases split at the bar of its partial exit if it had one and in one phase if not, whatever the order of the samples |
| `LedgerSettlement.StepTellsPartial` | backtest/backtest_runner.py:474-523 | A bar records its time as the moment of the partial exit exactly when its exit decision was a partial exit; a trade closed at its trailing stop had one, a trade closed by stop or target had none |
| `LedgerPartials.RunSplits` | backtest/backtest_runner.py:164-230 | At every bar of a run the moment of the partial exit, read off the bars alone, is the one each open position carries; positions not yet opened have none |
| `LedgerPartials.SplitIsTheOnlyPartial` | backtest/backtest_runner.py:474-523 | Whatever bar of a run a position took a partial exit at, the time of that bar is its recorded moment from then on |
| `LossBound.SettledLossIsBounded` | backtest/backtest_runner.py:525-544 | A position sized by the risk engine and closed by its exit rules loses, before fees and funding, at most equity x risk fraction (for a short, times 1 + exit slippage) plus equity x leverage x (entry slippage + exit slippage): a stop or timeout without a partial exit always, any other exit when the minimum reward-to-risk is not negative |
| `LossBound.OpenedIsSized` | backtest/backtest_runner.py:380-404 | Opening joins sizing, leverage cap and entry fill into the facts the bound needs |
| `LossBound.ExitAboveFloor` | core/risk_engine.py:100-124 | For a well-formed candle no exit price lies beyond the stop, for stops and timeouts without a partial exit whatever the configuration, for the others when the minimum reward-to-risk is not negative |
| `LossBound.LegFloorPerUnit` | backtest/fill_model.py:84-86 | Cost of one unit from entry fill to exit fill, for both directions |
| `LedgerTrades.RunBoundsLosses` | backtest/backtest_runner.py:164-230 | The bound at every point of a run, at the equity the curve shows for the opening bar |
| `LedgerTrades.FinalBoundsLosses` | backtest/backtest_runner.py:164-248 | The bound over every finished run, for every trade not closed by the end of the backtest |
| `RunGuarantees.RunnersBoundLosses` | backtest/backtest_runner.py:164-248 | The same for the candidates of plain, instrumented and research runs, without any condition on the candidates |
| `LedgerGates.RunWithinCaps` | backtest/backtest_runner.py:205-228 | Over every run, open positions never exceed the cap and openings on no UTC date exceed the daily cap |
| `LedgerGates.RunKeepsSafety` | backtest/backtest_runner.py:189-228 | At every point of a run each opening happened with drawdown, streak and cooldown limits of both gates held by exactly the trades that had closed by then |
| `LedgerGates.FinalKeepsSafety` | backtest/backtest_runner.py:189-248 | The same for finished runs, with the daily cap; trades closed by the end of the backtest count as later |
| `LedgerGates.SafePrefixIsUnique` | backtest/backtest_runner.py:763-801 | Which trades those are is not a matter of choice: there is one split of the closed trades into those closed by then and those closed later |
| `RunGuarantees.RunnersKeepSafety` | backtest/backtest_runner.py:189-248 | The same for the candidates of plain, instrumented and research runs over bars with rising times |
| `LedgerFills.StepSucceeds` | backtest/backtest_runner.py:453-601 | A bar with positive prices never fails for a balanced position whose own prices are positive, and keeps them positive |
| `LedgerFills.FinalSucceeds` | backtest/backtest_runner.py:126-252 | No run over positive bars and candidates ends with an error, for a supported order type and entry slippage under 100 percent |
| `RunGuarantees.RunnersSucceed` | backtest/backtest_runner.py:126-252 | So plain, instrumented and research runs over positive bars never fail, when the entries computed from the bars are positive and the first target lies on the winning side |
| `RunGuarantees.RunnersKeepPromises` | backtest/backtest_runner.py:126-252 | From the settings and the bars alone, for all three runners: the run ends, conserves trades and money, closes every trade at the bar and price that call for it, charges exact funding, bounds losses, keeps the limits at every opening, spaces its entries and, when candles rise in time, reports exact excursions |
| `ReplayedRuns.ReplayIsSound` | backtest/replay_loader.py:97-154 | The stream a replay yields from sound 15-minute bars under rising open times has rising times and candles, positive prices and well-formed candles |
| `ReplayedRuns.ReplayedRunsKeepPromises` | backtest/backtest_runner.py:164-248 | So every run of the three runners over what the replay loads from such a recording keeps all of these promises |
| `LedgerGates.CooldownRespected` | core/governance.py:60-64 | Read off the trades alone: no position was opened within the cooldown of a losing trade closed before it |
| `LedgerGates.DecideWithinCaps` | core/risk_engine.py:52-66 | One decision keeps both caps |
| `LedgerShape.SweepSources` | backtest/backtest_runner.py:453-600 | Every record that remains or closes comes from one open record by one step |
| `LedgerShape.StepShape` | backtest/backtest_runner.py:164-230 | A bar that succeeds is a sweep, a booking and a decision |
| `LedgerShape.DecideShape` | backtest/backtest_runner.py:205-228 | A decision either opens one position and records its time, or leaves positions and trades alone |
| `BacktestRunner.OpenPositionRecord.constructor` | backtest/backtest_runner.py:406-420 | The new record is the opened position of the specification |
| `BacktestRunner.OpenPositionRecord.AccrueFunding` | backtest/backtest_runner.py:736-761 | Updates exactly the funding fields, as specified |
| `BacktestRunner.OpenPositionRecord.AppendCandle` | backtest/backtest_runner.py:930-942 | Appends the candle unless it is not newer than the last |
| `BacktestRunner.OpenPositionRecord.UpdateTrailingStop` | backtest/backtest_runner.py:603-627 | New extreme, trailing stop and position stop as specified, all else unchanged; LedgerLives.MarkedTrails says where that stop is |
| `BacktestRunner.OpenPositionRecord.TakePartial` | backtest/backtest_runner.py:482-523 | The whole new record of a partial exit, and whether it stays open, as specified, or the fill error |
| `BacktestRunner.OpenPositionRecord.Close` | backtest/backtest_runner.py:525-596 | The trade and position written for the second leg are those of the specification |
| `BacktestRunner.CloseOrKeep` | backtest/backtest_runner.py:455-595 | One record through one bar: kept, dropped or settled as specified; LedgerLives.StepOnCue says on the bar alone which, and at what price |
| `BacktestRunner.CloseEach` | backtest/backtest_runner.py:453-600 | The loop over the open records computes the specified sweep; remaining records keep their order |
| `BacktestRunner.Runner.constructor` | backtest/backtest_runner.py:106-124 | A runner starts with the starting books |
| `BacktestRunner.Runner.ClosePositionsIfNeeded` | backtest/backtest_runner.py:422-601 | Replaces the open list, appends trades and events, and returns the equity change of the specified closing step |
| `BacktestRunner.Runner.GenerateSignal` | research_lab/funnel.py:42-50 | The candidate of the plain or of the counting engine, and its counters |
| `BacktestRunner.Runner.Judge` | backtest/backtest_runner.py:205-216 | Runtime state, governance and risk give the specified gate, and the deque of accepted levels is updated as specified |
| `BacktestRunner.Runner.Process` | backtest/backtest_runner.py:205-228 | A candidate is rejected by governance, by risk, or opened; counters and books as specified |
| `BacktestRunner.Runner.CountRejection` | research_lab/funnel.py:61-80 | Exactly the counter of the gate that rejected is raised |
| `BacktestRunner.Runner.OpenPosition` | backtest/backtest_runner.py:366-420 | Appends one fresh record and its opening time |
| `BacktestRunner.Runner.RunBar` | backtest/backtest_runner.py:164-230 | One iteration of the main loop takes the books to the specified next books |
| `BacktestRunner.Runner.ForceCloseRemaining` | backtest/backtest_runner.py:629-734 | Closes every open record at the last price and empties the list |
| `BacktestRunner.ForceCloseOne` | backtest/backtest_runner.py:650-731 | One record through the closing sweep |
| `BacktestRunner.Runner.Run` | backtest/backtest_runner.py:126-252 | The whole run returns the trades and curve of the specification, or its error; the report counts every opening and its profit is the change of equity; an instrumented run adds the counters of this run to those it found, and they add up exactly when those it found were balanced without a trade |
| `BacktestRunner.Runner.FinishRun` | backtest/backtest_runner.py:232-252 | The end of the run: forced closing, trades, and a report whose profit is the change of equity |
| `RiskEngine.SizeIsCapped` | core/risk_engine.py:52-86 | An accepted size is positive, risks at most the risk fraction of equity at the stop, and is worth at most equity x leverage; SizeIsGreatest says it is the greatest such size |
| `RiskEngine.SizeIsGreatest` | core/risk_engine.py:68-80 | The size is the greatest within both caps: it risks the whole risk fraction of the equity at the stop or uses the whole leverage (on an entry of at least 1e-8), and any larger one breaks a cap |
| `RiskEngine.LeverageFollowsStop` | core/risk_engine.py:82-86 | The leverage is the configured maximum, or the smaller of that and the one for high volatility when the stop is at least the configured fraction of the entry away |
| `RiskEngine.ExitRules` | core/risk_engine.py:88-125 | Read off candle and position: the bar exits at the stop exactly when it touches it, else at the first target exactly when it touches that and no partial exit was taken, in part exactly when the share lies strictly between none and all; else at the close exactly when the holding hours have passed; else not |
| `RiskEngine.RejectedForFirst` | core/risk_engine.py:52-80 | A rejection names the first limit that fails, in the order of the source |
| `RiskEngine.MultipleOfRisk` | core/risk_engine.py:148-160 | Profit in multiples of risk, times the risk of one unit, is what one unit gains; without a stop distance it is zero |
| `RiskEngine.AllowedIff` | core/risk_engine.py:52-80 | A signal is let through exactly when every limit holds and there is a stop distance, a risk fraction and a leverage to size with |
| `RiskEngine.ExcursionsAreExtreme` | core/risk_engine.py:162-182 | The adverse and favourable excursions are the worst loss and best profit at any low or high of the path, reached at some candle unless zero |
| `FillModel.FillsAgainstTrader` | backtest/fill_model.py:57-91 | With slippage between zero and 100 percent every entry and every exit is filled worse than requested, for either direction, by exactly price x slippage |
| `FillModel.FillsInPlainTerms` | backtest/fill_model.py:57-91 | A fill keeps the size, pays the fee rate of its order type on the filled notional, and is worse than requested by the slippage of its order type in basis points |
| `FillModel.FillExample` | backtest/fill_model.py:57-91 | A concrete market buy and its price and fee |
| `FillModel.RefusedFills` | backtest/fill_model.py:57-83 | A fill is refused exactly for a price or size that is not positive, or an unsupported order type, and names the first of these |
| `Funding.NormalizeFundingSamples` | core/funding.py:40-64 | Drops rows without a time, reads a missing rate as zero, and sorts by time |
| `Funding.ComputeFundingPaid` | core/funding.py:16-37 | The loop over sorted samples computes the funding over the half-open interval, of which RowCosts, RowAdds and FundingSign say what every row costs either side |
| `Funding.FundingSplits` | core/funding.py:34-37 | Funding over an interval is the sum over its two halves, cut anywhere: no sample twice, none skipped |
| `Funding.FundingIgnoresOrder` | core/funding.py:40-64 | Any permutation of the samples owes the same |
| `Funding.RowCosts` | core/funding.py:29-37 | One row costs a long its rate on the notional and a short the negative of it, when stamped after the beginning of the interval and not after its end, else nothing |
| `Funding.RowAdds` | core/funding.py:29-37 | One more row adds exactly its own cost; no rows, no notional or an empty interval cost nothing |
| `Funding.FundingSign` | core/funding.py:29-37 | While no rate is negative, longs pay and shorts receive |
| `LedgerTrades.FinalFundingSided` | backtest/backtest_runner.py:736-761 | So over finished runs with such rates a long nets no more than its gross less fees, and a short no less |
| `Performance.MaxDrawdownPct` | backtest/performance.py:117-128 | The one-pass running-peak drawdown equals the specified worst fall of the equity curve, also when equity goes negative |
| `Performance.MaxDrawdownIsWorstPair` | backtest/performance.py:117-128 | That value is the largest relative fall over all pairs i <= j of the curve, attained by some pair |
| `Performance.FallFromPeakIsWorst` | backtest/performance.py:121-127 | Falling from the running peak is worse than falling from any earlier point, including across zero |
| `Performance.TracksStep` | backtest/performance.py:121-127 | One iteration keeps equity, peak and drawdown in step with the curve |
| `Performance.DrawdownGrows` | backtest/performance.py:117-128 | One more result raises the drawdown to the worst fall ending there, or leaves it |
| `Performance.MaxConsecutiveLosses` | backtest/performance.py:104-114 | The loop finds the longest run of losses not interrupted by a win (zero results interrupt nothing) |
| `Performance.Summarize` | backtest/performance.py:26-101 | Counts, sums, win rate, expectancy, average R of winners and losers and profit factor, all independent of the order of the trades; streak, drawdown and daily Sharpe ratio of the trades ordered by close time |
| `Performance.DailySharpeRatio` | backtest/performance.py:131-158 | Mean and variance of the returns of the trading days, each day on the equity left by all trades of earlier days; zero for fewer than two days or no variance |
| `Performance.DailySharpeIsUnique` | backtest/performance.py:131-158 | Trading days and ratio are determined by the trades |
| `Performance.ProfitFactorTellsSign` | backtest/performance.py:76-81 | The profit factor is above one, or infinite, exactly when the trades made money |
| `Performance.AverageInPlainTerms` | backtest/performance.py:64-74 | An average times its count is the sum; of none it is zero |
| `Performance.FactorInPlainTerms` | backtest/performance.py:76-81 | The profit factor times what was lost is what was won; without a loss it is infinite or zero |
| `Performance.SharpeExample` | backtest/performance.py:131-158 | Mean and variance of two concrete returns, and the cases without a ratio |
| `Performance.DrawdownExample` | backtest/performance.py:117-128 | A concrete fall by a quarter |
| `RuntimeLimits.ConsecutiveLosses` | backtest/backtest_runner.py:945-960 | Counting back from the last trade gives the specified same-day streak |
| `RuntimeLimits.TailLossesMeaning` | backtest/backtest_runner.py:945-960 | That streak counts the losses after the last win or other-day trade, and only those |
| `RuntimeLimits.ComputePeriodDrawdownPct` | backtest/backtest_runner.py:963-989 | The period drawdown is the drawdown of the events inside the period, in time order, from the equity at its start |
| `RuntimeLimits.ComputeRuntimeState` | backtest/backtest_runner.py:763-800 | Trades of the day, streak, daily and weekly drawdown and the last loss, recomputed from history |
| `RuntimeLimits.LatestIsLatest` | backtest/backtest_runner.py:773-775 | The recorded last time is the maximum |
| `RuntimeLimits.LossTimesAreLosses` | backtest/backtest_runner.py:774-775 | Every losing close is among the times looked at |
| `RuntimeLimits.LossTimesHaveLosses` | backtest/backtest_runner.py:774-775 | And every time among them is that of a losing close |
| `RuntimeLimits.PeriodsInPlainTerms` | backtest/backtest_runner.py:777-800 | The daily drawdown looks at the day of now, the weekly one at its week, in time order and from the equity at its start |
| `RuntimeLimits.EventCounts` | backtest/backtest_runner.py:963-989 | One more event counts in a period exactly when it lies on or after the start and before the end, and in the equity it starts with exactly when it lies before |
| `RuntimeLimits.EquityInPlainTerms` | backtest/backtest_runner.py:963-989 | The equity a period starts with is the starting equity plus what was booked before, kept above the guard |
| `RuntimeLimits.OpeningCounts` | backtest/backtest_runner.py:766-771 | One more opening counts for the date it falls on |
| `Calendar.DayHolds` | backtest/backtest_runner.py:763-800 | Days begin at midnight UTC and hold every moment they are the day of; hours count from there |
| `Calendar.WeekHolds` | backtest/backtest_runner.py:777-800 | Weeks begin at the midnight of a Monday and hold seven days |
| `SignalEngine.Diagnose` | core/signal_engine.py:71-159 | Branch by branch, the diagnosis is the specified one |
| `SignalEngine.ConfluenceScore` | core/signal_engine.py:248-293 | The reasons are the specified ones in order, and the score is the sum of their weights |
| `SignalEngine.StopOnLosingSide` | core/signal_engine.py:304-328 | The stop built is never on the winning side of the entry, in either direction |
| `SignalEngine.GeneratedIsWellPlaced` | core/signal_engine.py:183-216 | Every generated candidate carries the bar time and a stop on the losing side |
| `SignalEngine.GeneratedIff` | core/signal_engine.py:183-216 | A candidate is generated exactly when the context allows it and a direction is settled that nothing blocks; it carries that direction, its levels, its reasons and its score |
| `SignalEngine.DirectionInPlainTerms` | core/signal_engine.py:218-246 | A low is bought and a high sold with a divergence on that side alone, or with order flow beyond the threshold when divergences do not decide |
| `SignalEngine.UptrendInPlainTerms` | core/signal_engine.py:71-159 | When an uptrend is bought on an unreclaimed sweep of a high, or on a deep sweep of a low; neither is ever sold |
| `SignalEngine.BlocksInPlainTerms` | core/signal_engine.py:71-159 | What blocks a bar before a direction is settled, one reason for each case and in order |
| `SignalEngine.VerdictInPlainTerms` | core/signal_engine.py:71-159 | A settled direction is blocked exactly when the whitelist of the regime does not hold it or the score is below the minimum |
| `SignalEngine.ReasonsInPlainTerms` | core/signal_engine.py:248-293 | Which feature gives which reason, for either direction |
| `SignalEngine.LevelsInPlainTerms` | core/signal_engine.py:304-328 | Entry, stop and targets in terms of the sweep level, the average range and the multiples configured, with the minimum stop distance |
| `Governance.GovernanceLayer.constructor` | core/governance.py:32-39 | The layer starts with no accepted level |
| `Governance.GovernanceLayer.Evaluate` | core/governance.py:41-71 | Verdict and deque after one evaluation, as specified |
| `Governance.GovernanceLayer.IsDuplicateLevel` | core/governance.py:108-118 | Drops exactly the expired levels and finds a level within the tolerance if there is one |
| `Governance.GatesInPlainTerms` | core/governance.py:41-106 | The gates pass exactly below both drawdown limits, the streak and the daily number, in the session hours, outside every no-trade window, both ends included, and with the cooldown since the last loss over |
| `Governance.DuplicatesInPlainTerms` | core/governance.py:108-118 | Past the gates an entry is refused exactly when a level accepted within the window is within the relative tolerance of it |
| `Governance.RemembersInPlainTerms` | core/governance.py:32-39 | Two hundred accepted levels are remembered; one more pushes out the oldest |
| `Governance.RewardToRisk` | core/governance.py:73-90 | The reward-to-risk ratio times the stop distance is what the first target gains |
| `GovernanceRuns.ApprovalsAreSpaced` | core/governance.py:39-118 | For every call sequence in time order the deque is always the last 200 approvals not before the horizon of the last check, and among any 201 consecutive approvals two within the window differ by more than the relative tolerance |
| `GovernanceRuns.AfterDrop` | core/governance.py:108-112 | Expiry keeps the deque equal to that window |
| `GovernanceRuns.AfterAppend` | core/governance.py:69-69 | Acceptance keeps it, pushing out the oldest only when 200 are kept |
| `GovernanceRuns.AcceptedIsSpaced` | core/governance.py:113-118 | An accepted level is apart from every approval still in the window |
| `LedgerApprovals.RunIsGoverned` | backtest/backtest_runner.py:205-228 | At every bar of every run in time order the levels the ledger carries are that window over all approvals of the run, and every position stands at the level approved for it |
| `LedgerApprovals.TradesAreSpaced` | backtest/backtest_runner.py:205-228 | Of any two trades of a finished run opened within the window of each other, the later was entered at a level apart from the earlier, unless more than 200 levels were approved in between |
| `Funnel.RegimeBlockedMeaning` | research_lab/funnel.py:19-40 | The check the proxy makes on its own holds exactly for reclaimed sweeps whose diagnosis is blocked by the direction whitelist |
| `Funnel.ProxyIsTransparent` | research_lab/funnel.py:42-50 | The counting proxy changes no candidate |
| `Funnel.OverlayOffIsTransparent` | research_lab/research_backtest_runner.py:259-290 | With the overlay off the research runner selects the base candidate |
| `Funnel.SourcesAreWellPlaced` | research_lab/research_backtest_runner.py:292-360 | Every candidate source keeps the placement the loss bound relies on |
| `Funnel.OverlayInPlainTerms` | research_lab/research_backtest_runner.py:292-360 | The overlay speaks exactly for a deep enough reclaimed sweep of a high in an uptrend with the flow, a close far enough above the level and the score raised by its multiplier; it says a long at the levels of the signal engine |
| `Funnel.StrengthInPlainTerms` | research_lab/research_backtest_runner.py:292-360 | A bar closed strongly enough exactly when it closed that many average ranges above the swept level |
| `Funnel.SelectionInPlainTerms` | research_lab/research_backtest_runner.py:259-290 | The candidate of the overlay is taken exactly when there is no other or its score is higher |
| `Funnel.SameBooks` | research_lab/funnel.py:86-130 | Instrumented runs, and research runs with the overlay off, end with the same trades, curve and errors as plain runs |
| `Funnel.CountersBalance` | research_lab/funnel.py:42-80 | Generated signals are blocked, rejected, opened, or in excess of one candidate a bar |
| `Funnel.FunnelBalances` | research_lab/funnel.py:106-130 | Over every instrumented run: generated = regime-blocked + governance-rejected + risk-rejected + executed trades |
| `Funnel.RerunBalancesIff` | research_lab/funnel.py:86-92 | Counters are set when the runner is made and not when it is run: after a second run on the same runner they add up with its trades exactly when the first run made no trade |
| `FunnelExamples.RerunExample` | research_lab/funnel.py:86-92 | A concrete runner, run twice over one bar, ends with counters that do not add up |
| `Funnel.ResearchFunnelBalancesIff` | research_lab/research_backtest_runner.py:131-163 | A research run keeps that identity exactly when no bar has the fields that make both sources speak: shorts whitelisted in an uptrend, overlay on, a deep enough reclaimed sweep of a high in an uptrend, flow that reads short yet meets the overlay minimum, and both scores reached |
| `Funnel.BothCandidatesIff` | research_lab/research_backtest_runner.py:259-360 | The signal engine and the overlay both produce a candidate on a bar exactly under those conditions on configuration and bar |
| `Funnel.ResearchFunnelBalances` | research_lab/research_backtest_runner.py:131-163 | While shorts are not whitelisted in an uptrend the identity holds over every research run |
| `Funnel.ShippedWhitelistsBalance` | settings.py:20-45 | No whitelist of the settings, default, with longs in an uptrend, or experiment profile, allows a short in an uptrend |
| `FunnelExamples.FunnelOffExample` | research_lab/research_backtest_runner.py:131-163 | With shorts whitelisted in an uptrend, a concrete one-bar run counts two signals, one rejection and no trade |
| `ResearchRunner.ResearchBacktestRunner.constructor` | research_lab/research_backtest_runner.py:40-54 | Wraps a runner with the overlay settings |
| `ResearchRunner.ResearchBacktestRunner.ResolveSignalCandidates` | research_lab/research_backtest_runner.py:124-134 | Selects the specified candidate and counts what was produced |
| `ResearchRunner.ResearchBacktestRunner.RunBar` | research_lab/research_backtest_runner.py:84-165 | One iteration of the duplicated loop takes the books to the specified next books |
| `ResearchRunner.ResearchBacktestRunner.Run` | research_lab/research_backtest_runner.py:56-187 | The duplicated run returns the result of the specification on research candidates, with its counters |
| `ResearchRunner.ResearchBacktestRunner.Replay` | research_lab/research_backtest_runner.py:84-165 | The loop over all bars |
| `EqualLevels.DetectEqualLevels` | core/feature_engine.py:113-141 | The sort and the two loops compute the specified levels |
| `EqualLevels.CutAtGaps` | core/feature_engine.py:123-133 | The clustering loop computes the specified clusters of sorted samples |
| `EqualLevels.ClustersCutAtGaps` | core/feature_engine.py:127-133 | The clusters are the sorted samples cut exactly where a step exceeds the tolerance |
| `EqualLevels.ClustersAreComponents` | core/feature_engine.py:113-133 | The clusters partition the samples, and two samples share a cluster if and only if a chain of samples with steps within the tolerance joins them, for every tolerance |
| `EqualLevels.FarApart` | core/feature_engine.py:127-133 | Samples of different clusters differ by more than the tolerance |
| `EqualLevels.LevelsIncrease` | core/feature_engine.py:135-141 | Before rounding, each level exceeds the one before by more than the tolerance |
| `EqualLevels.MeanWithin` | core/feature_engine.py:140-140 | A level lies between the lowest and highest price of its cluster |
| `EqualLevels.LevelInPlainTerms` | core/feature_engine.py:128-141 | A cluster gives a level exactly when it has enough samples, two of them far enough apart in age; the level times their number is the sum of their prices |
| `EqualLevels.LevelsIgnoreOrder` | core/feature_engine.py:113-141 | Any permutation of the samples gives the same levels |
| `EqualLevels.SortedPricesAgree` | core/feature_engine.py:122-122 | Two sorted arrangements of the same samples carry the same prices position by position |
| `FeatureWindows.HistoryKeepsLastPerStamp` | core/feature_engine.py:427-430 | In time order, recording keeps exactly the last sample of every stamp |
| `FeatureWindows.HistoryRises` | core/feature_engine.py:427-430 | and the stamps rise strictly |
| `FeatureWindows.OiWindowIsHistory` | core/feature_engine.py:425-433 | For rows loaded at start-up and any samples after them in time order, the deque is the whole history filtered to the window |
| `FeatureWindows.OiStatsFromScratch` | core/feature_engine.py:435-439 | So value, z-score, change and maturity equal those computed from the filtered history |
| `FeatureWindows.OpenInterestInPlainTerms` | core/feature_engine.py:425-472 | Readiness by number of samples and days covered, and the change since the sample before, cleared of its division |
| `FeatureWindows.OldestIsRecent` | core/feature_engine.py:425-440 | The oldest sample kept is at most the configured number of days older than the newest |
| `FeatureWindows.CvdWindowIsSuffix` | core/feature_engine.py:327-332 | For any stream the capped deque is the last 500 bars of the whole history |
| `FeatureWindows.CvdWindowHolds` | core/feature_engine.py:215-230 | The deque holds all bars, up to 500 and never more |
| `FeatureWindows.CvdFlagsFromScratch` | core/feature_engine.py:333-338 | With at most 500 bars asked for, the deque gives the divergence flags of the whole history |
| `FeatureWindows.CvdFlagsBeyondCap` | core/feature_engine.py:503-506 | With more than 500 bars asked for, no divergence is ever reported |
| `FeatureWindows.CvdFlagsAgreeIff` | core/feature_engine.py:327-338 | The deque gives the flags of the whole history for every history exactly when at most 500 bars are asked for, by the window and by the requirement |
| `FeatureWindows.BeyondCapSpeaks` | core/feature_engine.py:503-531 | For every configuration that asks for more, a history just long enough shows a divergence the deque does not |
| `FeatureWindows.BeyondCapExample` | core/feature_engine.py:503-506 | A concrete history of 501 bars that shows a bullish divergence the deque does not |
| `FeatureWindows.DivergenceByRollingSums` | core/feature_engine.py:508-531 | Comparing running totals at the two bars asks for a new extreme beyond every earlier bar and the sign of the net delta since the first previous extreme |
| `FeatureWindows.HighIdx` | core/feature_engine.py:520-520 | The index found is the first highest bar |
| `FeatureWindows.DivergenceInPlainTerms` | core/feature_engine.py:503-531 | The flags look at the last bars of the window, three at the least, and are down while the history is shorter than that or than required |
| `FeatureWindows.LowIdx` | core/feature_engine.py:521-521 | The index found is the first lowest bar |
| `FeatureWindows.FeatureEngine.constructor` | core/feature_engine.py:215-219 | All three deques start empty |
| `FeatureWindows.FeatureEngine.Reset` | core/feature_engine.py:221-230 | All three deques are cleared |
| `FeatureWindows.FeatureEngine.ComputeOiStats` | core/feature_engine.py:425-439 | The new deque and the statistics read off it |
| `FeatureWindows.FeatureEngine.RecordCvd` | core/feature_engine.py:327-338 | The new deque and the flags read off it |
| `FeatureWindows.FeatureEngine.RecordForceOrders` | core/feature_engine.py:341-344 | The new capped deque of rates, and the spike and decrease flags read off it |
| `FeatureWindows.RateWindowIsSuffix` | core/feature_engine.py:341-342 | For any stream the deque holds the last rates of the whole history, as many as configured |
| `FeatureWindows.DecreasingMeaning` | core/feature_engine.py:544-548 | Forced orders are reported as decreasing exactly when the last three counts of the stream fall and the deque has room for three |
| `FeatureWindows.SpikeInPlainTerms` | core/feature_engine.py:533-542 | A spike takes five earlier rates and a rate above their mean by more than two deviations, or any positive rate above it when they do not vary |
| `FeatureWindows.FeatureEngine.ComputeCvdDivergence` | core/feature_engine.py:503-531 | The flags by meaning, not by running totals |
| `FeatureWindows.FeatureEngine.RollingSums` | core/feature_engine.py:510-514 | The loop over the recent bars computes every prefix sum |
| `ReplayLoader.BisectBetween` | backtest/replay_loader.py:337-337 | The split position: all before at most the key, all from it on greater |
| `ReplayLoader.SliceLookback` | backtest/replay_loader.py:333-339 | The bisected slice is the last rows of the plain filter |
| `ReplayLoader.LatestUpTo` | backtest/replay_loader.py:341-346 | The bisected row is the last of the plain filter; used for open interest and daily bias |
| `ReplayLoader.ResolveAggBucket` | backtest/replay_loader.py:348-372 | The bucket stamped exactly, else the latest up to the fallback time, else none |
| `ReplayLoader.ForceOrdersWindow` | backtest/replay_loader.py:374-379 | Two bisections give the half-open sixty seconds |
| `ReplayLoader.LoadSeries` | backtest/replay_loader.py:181-199 | Rows and times are loaded side by side |
| `ReplayLoader.LoadExact` | backtest/replay_loader.py:251-270 | The index by exact time holds the last row of every time |
| `ReplayLoader.Preload` | backtest/replay_loader.py:156-331 | All series and indexes describe the rows the queries select: bars from the longest lookback on, forced orders from a minute before the start, everything up to the end |
| `ReplayLoader.BuildSnapshot` | backtest/replay_loader.py:97-154 | The snapshot built from bisected lookups is the one said with filters over the loaded rows |
| `ReplayLoader.IterSnapshots` | backtest/replay_loader.py:74-154 | The generator loop yields the snapshots said with filters over the selected rows, for the bars in range |
| `ReplayLoader.SnapshotSeesNoFuture` | backtest/replay_loader.py:97-154 | No row stamped after the snapshot enters it; its 15m bars have closed; its force orders are exactly those of the last sixty seconds |
| `ReplayLoader.SnapshotsRise` | backtest/replay_loader.py:89-93 | Rising open times give snapshots strictly rising in time |
| `ReplayLoader.SnapshotInPlainTerms` | backtest/replay_loader.py:88-154 | A snapshot is stamped a quarter of an hour after its bar opened and takes the price at which the bar closed |
| `ReplayLoader.LookbackInPlainTerms` | backtest/replay_loader.py:158-176 | Bars are selected from the longest of the three lookbacks on, each counted in its own bars, and from the start at the latest |
| `ReplayLoader.UnfinishedBarShown` | backtest/replay_loader.py:102-111 | Hourly and four-hourly bars are looked up by open time: a snapshot shows a bar still open, with its later high, low and close, exactly when one opened within its span before the snapshot and the lookback is positive |
| `ReplayLoader.UnfinishedBarExample` | backtest/replay_loader.py:102-111 | A concrete bar shown at the moment it opens |
| `ReplayRange.SnapshotIsWholeIff` | backtest/replay_loader.py:97-192 | A snapshot over the selected rows equals the one over everything recorded exactly when none of the bars looked back at opened before the lookback; all else in it always agrees |
| `ReplayRange.LookbackIsWholeIff` | backtest/replay_loader.py:158-176 | One lookback is complete exactly when none of its rows lies before the first bar selected |
| `ReplayRange.BarsReplayedIff` | backtest/replay_loader.py:88-93 | Every recorded bar that closes in the range is replayed exactly when some lookback is configured or no bar was open at the start |
| `ReplayRange.GapFreeReplayIsWhole` | backtest/replay_loader.py:74-192 | Over bars recorded without gaps the replay shows exactly what it would show over everything recorded |
| `ReplayRange.GapExample` | backtest/replay_loader.py:158-176 | Two concrete bars with a gap between them: the lookback misses one |
| `MarketData.DedupeAggTrades` | data/market_data.py:388-401 | Keeps every trade without an identifier and the first of every identifier not seen, and remembers all identifiers |
| `MarketData.DedupedTradesMeaning` | data/market_data.py:388-401 | What is left of a batch is exactly every trade that has no identifier or is the first with a new one |
| `MarketData.LoadRestAggTradeWindow` | data/market_data.py:294-339 | The paging loop terminates and collects the first page and every later trade of the window, in order |
| `MarketData.PageById` | data/market_data.py:317-337 | The loop over later pages collects every trade of the window behind the first page |
| `MarketData.LoadsEveryTradeOnce` | data/market_data.py:294-339 | Every trade of the window is returned exactly once, however many share a millisecond, and nothing else, if and only if the first page holds no trade from outside the window |
| `MarketData.StrayMeaning` | data/market_data.py:308-313 | Such a trade exists exactly when the start is not a whole millisecond and some trade is stamped in the millisecond it falls inside of |
| `MarketData.MillisecondHolds` | data/market_data.py:308-313 | The millisecond the start of a window falls inside of |
| `MarketData.StrayExample` | data/market_data.py:308-313 | A concrete window that loads a trade stamped before it |
| `MarketData.LoadFundingWindow` | data/market_data.py:341-376 | The cursor loop terminates and returns the first row of every funding time of the window |
| `MarketData.TakePage` | data/market_data.py:360-371 | One page: the rows with a new time, and the last of those times |
| `MarketData.FundingPage` | data/market_data.py:351-374 | A short page completes the window, a full one everything up to its last time |
| `MarketData.LoadsEveryFundingRowOnce` | data/market_data.py:341-376 | For distinct funding times that is every row of the window once, unless a row is stamped in the millisecond the start falls inside of |
| `MarketData.FundingStrayExample` | data/market_data.py:341-376 | A concrete window that loads a funding row stamped before it |
| `Dedupe.DedupedMeaning` | data/market_data.py:388-401 | What is left is the first element of every key, each key once |
| `Buckets.StreamBuckets` | scripts/bootstrap_from_zip.py:148-181 | One pass over the trades gives both bucketings and the count |
| `Buckets.AddKeepsTotals` | scripts/bootstrap_from_zip.py:169-174 | Adding a trade to its cell keeps every cell equal to the volumes of its group |
| `Buckets.FinalizeBuckets` | scripts/bootstrap_from_zip.py:120-145 | The cells, listed and sorted, are the bucketing |
| `Buckets.BuildAggtradeBuckets` | scripts/bootstrap_history.py:123-154 | Grouping, summing and sorting gives the bucketing |
| `Buckets.BucketingIsUnique` | scripts/bootstrap_from_zip.py:148-181 | There is one bucketing of given trades: streaming and group-then-sum agree |
| `Buckets.QuartersSumMinutes` | scripts/bootstrap_from_zip.py:169-174 | Every fifteen-minute bucket holds the sum of its one-minute buckets, bought and sold |
| `Buckets.VolumeIsConserved` | scripts/bootstrap_from_zip.py:120-145 | Total bucket volume equals total quantity traded |
| `Buckets.BucketInPlainTerms` | scripts/bootstrap_from_zip.py:120-145 | What the taker bought and sold in a bucket, the excess of the one over the other, and that excess as a part of both |
| `Buckets.FloorInPlainTerms` | scripts/bootstrap_from_zip.py:114-117 | From the epoch on a bucket begins at a multiple of its width and holds the trade |
| `Buckets.SecondsInPlainTerms` | scripts/bootstrap_from_zip.py:114-117 | Whole seconds are counted towards the epoch |
| `Buckets.BucketingSums` | scripts/bootstrap_history.py:123-154 | Summing a volume over any set of bucket times is summing it over the trades that fall in them |
| `HourlyBuckets.FetchWindowTrades` | scripts/bootstrap_history.py:293-322 | The inner loop over pages terminates and collects the specified pages |
| `HourlyBuckets.PagingIsComplete` | scripts/bootstrap_history.py:297-322 | Paging by time returns every trade of the hour if and only if no boundary between full pages falls between two trades of one millisecond; otherwise trades are lost |
| `HourlyBuckets.DedupeRows` | scripts/bootstrap_history.py:116-120 | One row for every key, the last one given |
| `HourlyBuckets.FetchAggtradeBucketsPaginated` | scripts/bootstrap_history.py:275-338 | The loop over hours gives, for both widths, the bucket of the last hour in which it occurs, in time order, and counts the trades loaded |
| `HourlyBuckets.HourlyIsOnePass` | scripts/bootstrap_history.py:290-338 | With complete pages and no bucket straddling an hour, hour by hour equals one pass over all trades |
| `HourlyBuckets.HourlyIsOnePassIff` | scripts/bootstrap_history.py:290-338 | With positive quantities that condition is also necessary: a straddling bucket keeps only the trades of its last hour |
| `HourlyBuckets.AlignedStartNeverStraddles` | scripts/bootstrap_history.py:275-338 | From a start on a quarter of an hour, at or after the epoch, no bucket straddles |
| `HourlyHistory.UpsertAggtradeBuckets` | scripts/bootstrap_history.py:471-496 | Writing rows leaves the last row of every time, and the rows stored before where none was written |
| `HourlyHistory.StoreHistory` | scripts/bootstrap_history.py:341-364 | Fetching and writing window by window stores, for both widths, the bucket of the last hour in which it occurs, over what was stored, and counts the trades loaded |
| `HourlyHistory.StoredIsHourly` | scripts/bootstrap_history.py:341-364 | Into an empty store that is what one call over the whole span collects |
| `HourlyHistory.CleanHoursLoseNothing` | scripts/bootstrap_history.py:297-322 | No hour loses a trade exactly when no page boundary of any hour falls inside a millisecond |
| `HourlyHistory.CleanHistoryIsOnePass` | scripts/bootstrap_history.py:275-364 | From a start on a quarter of an hour and with such page boundaries, hour by hour equals one pass over all trades |
| `HourlyHistory.HourlyEqualsOnePassIff` | scripts/bootstrap_history.py:275-338 | With positive quantities, for any start and width: hour by hour equals one pass exactly when no page boundary falls inside a millisecond and no bucket straddles an hour |
| `HourlyHistory.HistoryIsOnePassIff` | scripts/bootstrap_history.py:275-364 | So from a start on a quarter of an hour exactly when paging loses no trade |
| `HourlyHistory.LostTradeExample` | scripts/bootstrap_history.py:297-322 | Two trades in one millisecond and pages of one: the second is lost |
| `HourlyHistory.MisalignedStartExample` | scripts/bootstrap_history.py:290-338 | A concrete start off the hour for which hour by hour differs from one pass |
| `Pareto.ComputeParetoFrontier` | research_lab/pareto.py:27-43 | The nested loop computes the accepted trials that no accepted trial dominates |
| `Pareto.FrontierIsComplete` | research_lab/pareto.py:27-43 | Every accepted trial left out is dominated by a member; no member is dominated by any accepted trial |
| `Pareto.FrontierKeepsOrder` | research_lab/pareto.py:31-43 | Members stand in input order, each occurrence at most once |
| `Pareto.FrontierIsIdempotent` | research_lab/pareto.py:27-43 | The frontier of a frontier is itself |
| `Pareto.RankingRespectsDominance` | research_lab/pareto.py:46-58 | Ranking permutes, and a trial that dominates another always comes before it |
| `Pareto.RankedByMetrics` | research_lab/pareto.py:46-58 | Every trial of the ranking stands before all of lower expectancy, then lower profit factor, then higher drawdown, then fewer trades, then larger identifier |
| `Pareto.DominatesInPlainTerms` | research_lab/pareto.py:6-24 | A trial dominates another exactly when it is worse in none of expectancy, profit factor and drawdown, and better in one |
| `WalkForward.BuildWindows` | research_lab/walkforward.py:51-92 | The loop builds the windows cursor by cursor until one does not fit, or refuses the mode; it is called where it terminates |
| `WalkForward.StuckWithoutStep` | research_lab/walkforward.py:66-90 | It terminates exactly there: without a positive step, once a window fits every later cursor fits too |
| `WalkForward.StuckExample` | research_lab/walkforward.py:66-90 | A concrete protocol for which every cursor fits |
| `WalkForward.NoWindowMissed` | research_lab/walkforward.py:79-90 | No later cursor fits once one does not |
| `WalkForward.ValidationsDisjoint` | research_lab/walkforward.py:76-90 | Stepping by at least a validation span, no moment is validated twice, and validation starts where training ends |
| `WalkForward.WindowInPlainTerms` | research_lab/walkforward.py:66-78 | A window trains from its cursor, or from the start if anchored, for its days, and validates right after for its days |
| `WalkForward.SegmentFailures` | research_lab/walkforward.py:132-161 | The failures listed, in order |
| `WalkForward.FailuresOf` | research_lab/walkforward.py:132-161 | None are listed exactly when the segment meets every limit and was not rejected |
| `WalkForward.LimitsInPlainTerms` | research_lab/walkforward.py:132-161 | The limits are met exactly when nothing was rejected and no figure lies beyond its limit |
| `WalkForward.RunWalkforward` | research_lab/walkforward.py:284-387 | Counts, mean degradation of the passing windows, fragility and verdict; the result of every window with its dates and the failures of both segments; each safety flag raised exactly when some window, or the mean degradation, calls for it; a failed run always gives a reason, and no reason is the name of a blocking risk |
| `WalkForward.Concluded` | research_lab/walkforward.py:348-387 | The verdict from the counts under the three rules |
| `WalkForward.PassCountMeaning` | research_lab/walkforward.py:326-341 | All windows count as passed exactly when every one meets the limits in training and validation, some when one does |
| `WalkForward.DegradationInPlainTerms` | research_lab/walkforward.py:95-98 | The degradation times the size of the training expectancy is what was lost, in percent; next to nothing degrades by zero |
| `WalkForward.MeanInPlainTerms` | research_lab/walkforward.py:284-345 | A mean times its count is the sum; of nothing it is zero |
| `WalkForward.IncredibleInPlainTerms` | research_lab/walkforward.py:171-201 | The figures beyond belief: profit or loss above 100 000, profit factor above five |
| `WalkForward.RulesAreOrdered` | research_lab/walkforward.py:359-368 | A pass is never fragile; passing under "all" implies passing under "median", which implies passing under "any" |
| `Autoresearch.BlockingRisks` | research_lab/autoresearch_loop.py:400-407 | The risks, each once, exactly those the report calls for |
| `Autoresearch.Assess` | research_lab/autoresearch_loop.py:618-642 | A candidate has no blocking risk exactly when its verdict is a pass |
| `Autoresearch.RankedFirst` | research_lab/autoresearch_loop.py:410-425 | The first ranks no later than any other by its metrics (RankedByMetrics for every pair), and ranking loses and adds nothing |
| `Autoresearch.RankedByMetrics` | research_lab/autoresearch_loop.py:410-425 | Every result of the ranking is placed before every later one by what it shows: passed before failed, sturdy before fragile, then higher expectancy, lower drawdown, higher profit factor, more trades, smaller identifier |
| `Autoresearch.PassedRanksFirst` | research_lab/autoresearch_loop.py:410-420 | Nothing that failed ranks before a pass |
| `Autoresearch.EvaluateCandidates` | research_lab/autoresearch_loop.py:585-642 | Candidates are evaluated in order until a write fails |
| `Autoresearch.BundleNamesBest` | research_lab/autoresearch_loop.py:664-674 | The top of the ranking is free of risks exactly when some candidate passed, and then it passed and none deserves a place before it, by verdict, fragility, expectancy, drawdown, profit factor, trades and identifier |
| `Autoresearch.BestHasBestMetrics` | research_lab/autoresearch_loop.py:664-674 | On metrics alone: no passing result has a higher expectancy than the one named, none of that expectancy a lower drawdown, none equal in both a higher profit factor, none equal in all three more trades, and none equal in all four a smaller identifier |
| `Autoresearch.RunAutoresearchLoop` | research_lab/autoresearch_loop.py:582-692 | While the store stays writable a bundle is written if and only if some evaluated candidate passed, and it names the passing one that none deserves a place before, on metrics alone; otherwise none is written |
| `CandidateVectors.GenerateCandidateVectors` | research_lab/autoresearch_loop.py:288-369 | The two loops generate the new draws in order, at most the number asked for, and fewer only when all attempts are used |
| `CandidateVectors.GeneratedAreNew` | research_lab/autoresearch_loop.py:332-367 | The vectors generated are pairwise different and are exactly the vectors drawn that are not historical |
| `CandidateVectors.CollectHistory` | research_lab/autoresearch_loop.py:305-323 | History keeps the first of every vector |
| `CandidateVectors.HistoryInOrder` | research_lab/autoresearch_loop.py:305-323 | History is gathered by the priority of the recommendations first, then by the metrics |

## Left out

- SQLite persistence, schema and the experiment store; a query is the filter it states over rows in time order, and times compare as times, not as the text they are stored as.
- The live orchestrator, order manager, exchange clients and sockets, dashboard, alerts, audit and command lines.
- The feature, regime and context engines beyond the windows and clustering above: their outputs are inputs of each bar.
- Rounding of levels to cents, binary floating point and NaN; money is exact.
- Performance.Summarize: the roots in the Sharpe ratio are not taken, mean and variance are kept instead; open trades do not occur among those it is given.
- The z-score and the standard deviation of the feature windows are arbitrary functions of the values.
- Symbols and text identifiers: positions, trades and signals are numbered by the source's counters, and trial identifiers are numbers in the same order.
- BacktestRunner.Runner.Run: custom replay loaders and fill models are not modelled, and the first of the two runtime states computed per bar, which is overwritten before it is read, is skipped.
- BacktestRunner.OpenPositionRecord.constructor: the position is a value held in a field of the record; the source never shares one position between records.
- BacktestRunner.Runner.GenerateSignal: the three proxies are one flag on the runner, since they only forward and count.
- BacktestRunner.CloseEach: what the records hold after a fill model error is not specified; the source abandons the run there.
- LedgerTrades.FinalBoundsLosses: trades closed by the end of the backtest are outside the bound, since a position opened on the last bar is never checked against its stop.
- MarketData.LoadRestAggTradeWindow: the server of the model identifies every trade, so the break on a last trade without an identifier is never taken.
- WalkForward.BuildWindows: dates are moments already parsed; the nested walk-forward is not modelled.
- WalkForward.RunWalkforward: the evaluations of each window are inputs, as the backtests behind them are modelled elsewhere; the names of the database snapshots are not.
- Autoresearch.RunAutoresearchLoop: protocol checks, baseline gate, advisory reordering, recommendation texts and report files are not modelled.
- CandidateVectors.GenerateCandidateVectors: the sampling of single parameters and its repair are inputs, as are the seeded random draws; the rationale texts are left out.
- Klines, open-interest and funding paging of the history bootstrap, which repeat the time cursor modelled for trades.
- `scripts/run_backtest.py`, an older copy of the funnel.
