/**
 How much a trade can lose: sizing, the leverage cap, both fills and the exit price together bound
 the gross loss of every trade that the exit rules close.
 */
module LossBound {
  import opened Prelude
  import opened RealArith
  import opened Models
  import opened FillModel
  import opened Ledger
  import opened LedgerSettlement
  import Governance
  import RiskEngine
  import SignalEngine

  predicate WellFormedCandle(candle: Candle) {
    candle.low <= candle.close <= candle.high
  }

  function EntrySlip(config: RunConfig): real {
    Slippage(config.fill, config.entryOrderType)
  }

  function ExitSlip(config: RunConfig): real {
    Slippage(config.fill, Market)
  }

  predicate SaneFills(config: RunConfig) {
    SaneSlippage(config.fill, config.entryOrderType) && SaneSlippage(config.fill, Market)
  }

  /** A short pays exit slippage on the adverse move as well. */
  function AdverseFactor(config: RunConfig, d: Direction): real {
    if d.Long? then 1.0 else 1.0 + ExitSlip(config)
  }

  function Risked(config: RunConfig, equity: real): real {
    equity * config.risk.riskPerTradePct
  }

  function Levered(equity: real, leverage: int): real {
    equity * leverage as real
  }

  /** The most a trade opened at this equity and leverage can lose before fees and funding. */
  function WorstLoss(config: RunConfig, d: Direction, equity: real, leverage: int): real {
    Risked(config, equity) * AdverseFactor(config, d)
        + Levered(equity, leverage) * (EntrySlip(config) + ExitSlip(config))
  }

  /** The size uses up the risk fraction at the stop or the leverage. */
  ghost predicate FillsACap(config: RunConfig, x: ExecutableSignal, size: real, leverage: int, equity: real) {
    || Notional(Abs(x.entryPrice - x.stopLoss), size) == Risked(config, equity)
    || Notional(Max(x.entryPrice, TINY), size) == Levered(equity, leverage)
  }

  /** The position was sized by the risk engine at this equity, as large as its caps allow, entered at its
      requested price plus slippage, with its stop on the losing side and its target not. */
  ghost predicate Sized(config: RunConfig, r: Record, equity: real) {
    var p, x := r.position, r.executable;
    && x.entryPrice > 0.0 && x.direction == p.direction
    && p.entryPrice == FilledAt(x.entryPrice, EntrySlip(config), EntrySide(p.direction))
    && r.initialStopLoss == x.stopLoss && p.direction.Signed(x.entryPrice - x.stopLoss) >= 0.0
    && Notional(Abs(x.entryPrice - x.stopLoss), r.initialSize) <= Risked(config, equity)
    && Notional(x.entryPrice, r.initialSize) <= Levered(equity, p.leverage)
    && FillsACap(config, x, r.initialSize, p.leverage, equity)
    && p.takeProfit1 == x.takeProfit1
    && (config.risk.minRr >= 0.0 ==> p.direction.Signed(x.takeProfit1 - x.entryPrice) >= 0.0)
  }

  lemma RewardIsPositive(d: Direction, entry: real, stop: real, target: real, minRr: real)
    requires minRr >= 0.0 && Governance.ComputeRr(d, entry, stop, target) >= minRr && Abs(entry - stop) > 0.0
    ensures d.Signed(target - entry) >= 0.0
  {
    var reward := if d.Long? then target - entry else entry - target;
    QuotientTimes(reward, Abs(entry - stop));
    ProductNonNegative(reward / Abs(entry - stop), Abs(entry - stop));
  }

  lemma AllowedIsCapped(config: RunConfig, runtime: RiskEngine.RiskRuntimeState, x: ExecutableSignal, equity: real,
                        open: nat, size: real, leverage: int)
    requires RiskEngine.Evaluate(config.risk, runtime, x, equity, open) == RiskEngine.Allowed(size, leverage)
    ensures Notional(Abs(x.entryPrice - x.stopLoss), size) <= Risked(config, equity)
    ensures x.entryPrice > 0.0 ==> Notional(x.entryPrice, size) <= Levered(equity, leverage)
    ensures Abs(x.entryPrice - x.stopLoss) > 0.0 && x.rrRatio >= config.risk.minRr
    ensures FillsACap(config, x, size, leverage, equity)
  {
    CapsAre(config, equity, leverage);
    hide Notional, Risked, Levered;
    RiskEngine.SizeIsGreatest(config.risk, runtime, x, equity, open);
    RiskEngine.SizeIsCapped(config.risk, runtime, x, equity, open);
  }

  lemma CapsAre(config: RunConfig, equity: real, leverage: int)
    ensures Risked(config, equity) == Notional(equity, config.risk.riskPerTradePct)
    ensures Levered(equity, leverage) == Notional(equity, leverage as real)
  {
  }

  /** Opening a candidate that passed the gates sizes it at the current equity. */
  lemma OpenedIsSized(config: RunConfig, b: Books, now: int, c: SignalCandidate, runtime: RiskEngine.RiskRuntimeState,
                      size: real, leverage: int)
    requires SignalEngine.WellPlaced(c, now)
    requires RiskEngine.Evaluate(config.risk, runtime, Governance.ToExecutable(c), b.equity, |b.open|)
             == RiskEngine.Allowed(size, leverage)
    requires NewRecord(config, b, now, c, size, leverage).Ok?
    ensures Sized(config, NewRecord(config, b, now, c, size, leverage).value, b.equity)
  {
    hide RiskEngine.Evaluate, Risked, Levered, Notional, Governance.ComputeRr, Fee, Slippage, FillsACap;
    var x := Governance.ToExecutable(c);
    AllowedIsCapped(config, runtime, x, b.equity, |b.open|, size, leverage);
    if config.risk.minRr >= 0.0 {
      RewardIsPositive(x.direction, x.entryPrice, x.stopLoss, x.takeProfit1, config.risk.minRr);
    }
    assert x.entryPrice > 0.0;
    hide FilledAt;
  }

  /** One leg, requested at `exit`, loses at most the fall to a floor price plus both slippages. */
  lemma LegFloor(config: RunConfig, position: Position, entry: real, floor: real, exit: real)
    requires SaneFills(config) && entry > 0.0 && position.size > 0.0
    requires position.entryPrice == FilledAt(entry, EntrySlip(config), EntrySide(position.direction))
    requires position.direction.Signed(entry - floor) >= 0.0 && position.direction.Signed(exit - floor) >= 0.0
    ensures RiskEngine.PnlAbs(position, FilledAt(exit, ExitSlip(config), ExitSide(position.direction)))
         >= -Fee(Notional(position.direction.Signed(entry - floor), position.size),
                 AdverseFactor(config, position.direction))
            - Fee(Notional(entry, position.size), EntrySlip(config) + ExitSlip(config))
  {
    var d, q, e, s := position.direction, position.size, EntrySlip(config), ExitSlip(config);
    var entered, left := FilledAt(entry, e, EntrySide(d)), FilledAt(exit, s, ExitSide(d));
    LegFloorPerUnit(d, entry, floor, exit, e, s);
    var cost := Notional(d.Signed(entry - floor), AdverseFactor(config, d)) + Notional(entry, e + s);
    PnlFromUnit(position, left, cost);
    UnitCost(d.Signed(entry - floor), AdverseFactor(config, d), entry, e + s, q);
    hide FilledAt, Fee, Notional, RiskEngine.PnlAbs;
  }

  lemma PnlFromUnit(position: Position, left: real, cost: real)
    requires position.size > 0.0 && position.direction.Signed(left - position.entryPrice) >= -cost
    ensures RiskEngine.PnlAbs(position, left) >= -Notional(cost, position.size)
  {
    ProductMonotone(-cost, position.direction.Signed(left - position.entryPrice), position.size);
  }

  lemma UnitCost(move: real, factor: real, entry: real, slips: real, q: real)
    ensures Notional(Notional(move, factor) + Notional(entry, slips), q)
            == Fee(Notional(move, q), factor) + Fee(Notional(entry, q), slips)
  {
  }

  lemma LegFloorPerUnit(d: Direction, entry: real, floor: real, exit: real, entrySlip: real, exitSlip: real)
    requires entry > 0.0 && 0.0 <= entrySlip && 0.0 <= exitSlip <= 1.0
    requires d.Signed(entry - floor) >= 0.0 && d.Signed(exit - floor) >= 0.0
    ensures d.Signed(FilledAt(exit, exitSlip, ExitSide(d)) - FilledAt(entry, entrySlip, EntrySide(d)))
         >= -(Notional(d.Signed(entry - floor), if d.Long? then 1.0 else 1.0 + exitSlip)
              + Notional(entry, entrySlip + exitSlip))
  {
    Around(entry, entrySlip);
    Around(floor, exitSlip);
    SplitFactor(entry, entrySlip, exitSlip);
    if d.Long? {
      FeeMonotone(floor, exit, 1.0 - exitSlip);
      FeeMonotone(floor, entry, exitSlip);
      Around(entry - floor, 0.0);
    } else {
      FeeMonotone(exit, floor, 1.0 + exitSlip);
      Around(floor - entry, exitSlip);
      Difference(floor, entry, exitSlip);
    }
    hide Notional, Fee;
  }

  lemma Around(x: real, slip: real)
    ensures Notional(x, 1.0 + slip) == x + Notional(x, slip) && Notional(x, 1.0 - slip) == x - Notional(x, slip)
    ensures Notional(x, 1.0) == x
  {
  }

  lemma SplitFactor(x: real, a: real, b: real)
    ensures Notional(x, a + b) == Notional(x, a) + Notional(x, b)
  {
  }

  lemma Difference(x: real, y: real, k: real)
    ensures Notional(x - y, k) == Notional(x, k) - Notional(y, k)
  {
  }

  /** The price at which an exit is requested is never worse than the floor the stop guarantees:
      the initial stop before the partial exit, the requested entry after it. */
  function Floor(r: Record): real {
    if r.partialExitDone then r.executable.entryPrice else r.executable.stopLoss
  }

  /** The bound covers an exit when targets cannot lie on the losing side of the entry, or when no target
      was involved: the stop or the holding limit ended the position, and nothing was sold before. */
  predicate Covered(config: RunConfig, reason: ExitReason, split: Option<int>) {
    config.risk.minRr >= 0.0 || (split.None? && (reason.StopLoss? || reason.Timeout?))
  }

  lemma ExitAboveFloor(config: RunConfig, r: Record, s: Snapshot, equity: real)
    requires Balanced(config, r) && Sized(config, r, equity) && SaneFills(config)
    requires WellFormedCandle(LatestCandle(s))
    requires Exit(config, r, s).exitPrice.Some? && Exit(config, r, s).reason.Some?
    requires Covered(config, Exit(config, r, s).reason.value, SplitOf(r))
    ensures r.position.direction.Signed(Exit(config, r, s).exitPrice.value - Floor(r)) >= 0.0
    ensures r.position.direction.Signed(r.executable.entryPrice - Floor(r)) >= 0.0
  {
    EntryCosts(r.executable.entryPrice, EntrySlip(config), r.position.direction);
    hide Notional, Fee, MoneyBalances, FilledAt, Share;
  }

  lemma EntryCosts(price: real, slip: real, d: Direction)
    requires price > 0.0 && slip >= 0.0
    ensures d.Signed(FilledAt(price, slip, EntrySide(d)) - price) >= 0.0
  {
    ProductNonNegative(price, slip);
  }

  lemma WithinWorstLoss(config: RunConfig, r: Record, equity: real)
    requires QuantityBalances(r) && Sized(config, r, equity) && SaneFills(config)
    ensures var d, x := r.position.direction, r.executable;
            && Fee(Notional(d.Signed(x.entryPrice - x.stopLoss), r.initialSize), AdverseFactor(config, d))
               + Fee(Notional(x.entryPrice, r.initialSize), EntrySlip(config) + ExitSlip(config))
               <= WorstLoss(config, d, equity, r.position.leverage)
            && Fee(Notional(d.Signed(x.entryPrice - x.stopLoss), r.initialSize), AdverseFactor(config, d)) >= 0.0
  {
    var d, x, n := r.position.direction, r.executable, r.initialSize;
    assert Abs(x.entryPrice - x.stopLoss) == d.Signed(x.entryPrice - x.stopLoss);
    FeeMonotone(Notional(Abs(x.entryPrice - x.stopLoss), n), Risked(config, equity), AdverseFactor(config, d));
    FeeMonotone(Notional(x.entryPrice, n), Levered(equity, r.position.leverage), EntrySlip(config) + ExitSlip(config));
    ProductNonNegative(Abs(x.entryPrice - x.stopLoss), n);
    ProductNonNegative(Notional(Abs(x.entryPrice - x.stopLoss), n), AdverseFactor(config, d));
    assert AdverseFactor(config, d) >= 0.0;
    hide Notional, Risked, Levered, FilledAt, Fee;
    WorstLossAsFees(config, d, equity, r.position.leverage);
  }

  lemma FeeMonotone(a: real, b: real, rate: real)
    requires a <= b && rate >= 0.0
    ensures Fee(a, rate) <= Fee(b, rate)
    ensures Notional(a, rate) <= Notional(b, rate)
  {
    ProductMonotone(a, b, rate);
  }

  lemma WorstLossAsFees(config: RunConfig, d: Direction, equity: real, leverage: int)
    ensures WorstLoss(config, d, equity, leverage)
         == Fee(Risked(config, equity), AdverseFactor(config, d))
             + Fee(Levered(equity, leverage), EntrySlip(config) + ExitSlip(config))
  {
    hide Risked, Levered, EntrySlip, ExitSlip, AdverseFactor;
  }

  /** What the last leg may lose, given the floor under its price. */
  function LegCost(config: RunConfig, r: Record): real {
    Fee(Notional(r.position.direction.Signed(r.executable.entryPrice - Floor(r)), r.position.size),
        AdverseFactor(config, r.position.direction))
    + Fee(Notional(r.executable.entryPrice, r.position.size), EntrySlip(config) + ExitSlip(config))
  }

  lemma LastLeg(config: RunConfig, r: Record, price: real, equity: real)
    requires QuantityBalances(r) && Sized(config, r, equity) && SaneFills(config)
    requires r.position.direction.Signed(r.executable.entryPrice - Floor(r)) >= 0.0
    requires r.position.direction.Signed(price - Floor(r)) >= 0.0
    requires Simulate(config.fill, price, r.position.size, Market, ExitSide(r.position.direction)).Ok?
    ensures RiskEngine.PnlAbs(r.position, ExitFill(config, r, price).filledPrice) >= -LegCost(config, r)
  {
    hide FilledAt, Notional, Fee, RiskEngine.PnlAbs, AdverseFactor, Slippage;
    LegFloor(config, r.position, r.executable.entryPrice, Floor(r), price);
  }

  /** The part sold at the first target lost at most the slippages on it. */
  lemma PartialLegFloor(config: RunConfig, r: Record, equity: real)
    requires Balanced(config, r) && r.partialExitDone && Sized(config, r, equity) && SaneFills(config)
    requires config.risk.minRr >= 0.0 && r.closedQty > 0.0
    ensures r.realizedPnlAbsGross
         >= -Fee(Notional(r.executable.entryPrice, r.closedQty), EntrySlip(config) + ExitSlip(config))
  {
    hide FilledAt, Notional, Fee, Share, AdverseFactor, RiskEngine.PnlAbs, Slippage;
    var e, target := r.executable.entryPrice, r.position.takeProfit1;
    var sold := r.position.(size := r.closedQty);
    assert r.closedQty == Share(r.initialSize, config.risk.partialExitPct);
    LegFloor(config, sold, e, e, target);
    NoMoveNoCost(r.position.direction.Signed(e - e), r.closedQty, AdverseFactor(config, r.position.direction));
  }

  /** Both legs of a position together stay within the worst loss. */
  lemma LegsWithinWorstLoss(config: RunConfig, r: Record, equity: real, leg: real)
    requires Balanced(config, r) && Sized(config, r, equity) && SaneFills(config)
    requires (config.risk.minRr >= 0.0 || !r.partialExitDone) && leg >= -LegCost(config, r)
    ensures r.realizedPnlAbsGross + leg >= -WorstLoss(config, r.position.direction, equity, r.position.leverage)
  {
    hide Fee, Notional, FilledAt, WorstLoss, AdverseFactor, Share;
    WithinWorstLoss(config, r, equity);
    if r.partialExitDone {
      CostsAdd(r.executable.entryPrice, r.closedQty, r.position.size, EntrySlip(config) + ExitSlip(config));
      NoMoveNoCost(r.position.direction.Signed(r.executable.entryPrice - Floor(r)), r.position.size,
                   AdverseFactor(config, r.position.direction));
      if r.closedQty > 0.0 {
        PartialLegFloor(config, r, equity);
      } else {
        NothingSold(r.position, r.executable.entryPrice, EntrySlip(config) + ExitSlip(config));
      }
    }
  }

  lemma NothingSold(p: Position, entry: real, slips: real)
    ensures Fee(Notional(entry, 0.0), slips) == 0.0
    ensures RiskEngine.PnlAbs(p.(size := 0.0), p.takeProfit1) == 0.0
    ensures Notional(p.entryPrice, 0.0) == 0.0
  {
  }

  lemma NoMoveNoCost(move: real, qty: real, factor: real)
    requires move == 0.0
    ensures Fee(Notional(move, qty), factor) == 0.0
  {
  }

  lemma CostsAdd(entry: real, a: real, b: real, slips: real)
    ensures Fee(Notional(entry, a), slips) + Fee(Notional(entry, b), slips) == Fee(Notional(entry, a + b), slips)
  {
  }

  /** A trade closed by the stop, the target, the trailing stop or the holding limit loses at most
      `WorstLoss` before fees and funding. */
  lemma SettledLossIsBounded(config: RunConfig, r: Record, s: Snapshot, equity: real)
    requires Balanced(config, r) && Sized(config, r, equity) && SaneFills(config)
    requires WellFormedCandle(LatestCandle(s))
    requires Exit(config, r, s).exitPrice.Some? && Exit(config, r, s).reason.Some?
    requires Covered(config, Exit(config, r, s).reason.value, SplitOf(r))
    requires Settle(config.fill, r, Exit(config, r, s).exitPrice.value, Exit(config, r, s).reason.value,
                    s.timestamp).Ok?
    ensures var t := Settle(config.fill, r, Exit(config, r, s).exitPrice.value, Exit(config, r, s).reason.value,
                            s.timestamp).value.trade;
            Gross(t) >= -WorstLoss(config, t.direction, equity, r.position.leverage)
  {
    var price, reason := Exit(config, r, s).exitPrice.value, Exit(config, r, s).reason.value;
    ExitAboveFloor(config, r, s, equity);
    SettledFields(config, r, price, reason, s.timestamp);
    LastLeg(config, r, price, equity);
    LegsWithinWorstLoss(config, r, equity, RiskEngine.PnlAbs(r.position, ExitFill(config, r, price).filledPrice));
    hide Settle, Exit, RiskEngine.PnlAbs, ExitFill, WorstLoss, Balanced, Sized, Floor, LegCost;
  }
}
