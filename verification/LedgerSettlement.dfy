/**
 One position from opening to settlement: quantities and money balance at every bar, the branch
 that would lose a record is dead, the stop ratchets after the partial exit, funding is charged
 once per sample, and the trade written at the end tells the truth about both exit legs.
 */
module LedgerSettlement {
  import opened Prelude
  import opened RealArith
  import opened Models
  import opened Funding
  import opened FillModel
  import opened RuntimeLimits
  import opened Ledger
  import RiskEngine

  function EntryRate(config: RunConfig): real {
    FeeRate(config.fill, config.entryOrderType)
  }

  function ExitRate(config: RunConfig): real {
    FeeRate(config.fill, Market)
  }

  /** What is still open and what was sold make up the initial size. */
  ghost predicate QuantityBalances(r: Record) {
    && r.initialSize > 0.0 && r.position.size > 0.0 && r.closedQty >= 0.0
    && r.closedQty + r.position.size == r.initialSize
  }

  /** Realized profit and fees follow from the quantity sold and what it was sold for. */
  ghost predicate MoneyBalances(config: RunConfig, r: Record) {
    && r.realizedPnlAbsGross
       == r.position.direction.Signed(r.exitNotionalSum - Notional(r.position.entryPrice, r.closedQty))
    && r.totalFees
       == Fee(Notional(r.position.entryPrice, r.initialSize), EntryRate(config))
          + Fee(r.exitNotionalSum, ExitRate(config))
    && (SaneSlippage(config.fill, Market) ==> r.exitNotionalSum >= 0.0)
  }

  /** Before the partial exit nothing was sold and the stop is where it started; after it the stop
      is the trailing stop, never on the losing side of the filled entry. */
  ghost predicate StopConsistent(r: Record) {
    if r.partialExitDone then
      && r.position.status.Partial?
      && r.trailingStop == Some(r.position.stopLoss)
      && r.position.direction.Signed(r.position.stopLoss - r.position.entryPrice) >= 0.0
    else
      && r.position.status.Open?
      && r.closedQty == 0.0 && r.exitNotionalSum == 0.0 && r.realizedPnlAbsGross == 0.0
      && r.position.stopLoss == r.initialStopLoss
  }

  /** After the partial exit exactly the configured share is gone, sold at the first target. */
  ghost predicate ShareSold(config: RunConfig, r: Record) {
    r.partialExitDone ==>
      && r.position.size == Remaining(config, r.initialSize)
      && r.realizedPnlAbsGross == PartialLeg(config, r.position, r.initialSize)
  }

  /** Profit of selling the configured share of a position of this size at its first target. */
  function PartialLeg(config: RunConfig, p: Position, size: real): real {
    RiskEngine.PnlAbs(p.(size := Share(size, config.risk.partialExitPct)),
                      FilledAt(p.takeProfit1, Slippage(config.fill, Market), ExitSide(p.direction)))
  }

  function Remaining(config: RunConfig, size: real): real {
    size - Share(size, config.risk.partialExitPct)
  }

  ghost predicate Balanced(config: RunConfig, r: Record) {
    QuantityBalances(r) && MoneyBalances(config, r) && StopConsistent(r) && ShareSold(config, r)
  }

  lemma OpenedIsBalanced(config: RunConfig, now: int, c: SignalCandidate, x: ExecutableSignal, size: real,
                         leverage: int, positionId: nat, tradeId: nat)
    requires Opened(config, now, c, x, size, leverage, positionId, tradeId).Ok?
    ensures Balanced(config, Opened(config, now, c, x, size, leverage, positionId, tradeId).value)
  {
  }

  /** The marking that precedes an exit touches neither quantities nor money, and moves a stop only
      in the direction of profit. */
  lemma MarkedKeeps(config: RunConfig, rows: seq<RawFunding>, r: Record, s: Snapshot)
    requires Balanced(config, r)
    ensures var m := Marked(config, rows, r, s);
            && Balanced(config, m)
            && m.position == r.position.(stopLoss := m.position.stopLoss)
            && m.partialExitDone == r.partialExitDone
            && r.position.direction.Signed(m.position.stopLoss - r.position.stopLoss) >= 0.0
            && (!r.partialExitDone ==> m.position == r.position)
            && m.initialSize == r.initialSize && m.initialStopLoss == r.initialStopLoss && m.tradeId == r.tradeId
            && m.closedQty == r.closedQty && m.exitNotionalSum == r.exitNotionalSum
            && m.realizedPnlAbsGross == r.realizedPnlAbsGross
            && m.candidate == r.candidate && m.executable == r.executable
  {
    LegIgnoresStop(config, r.position, Marked(config, rows, r, s).position, r.initialSize);
    hide Share, PartialLeg, FundingPaid, TrailDistance, AppendCandle, OrLatest;
  }

  /** A partial exit happens at most once, at the first target, and sells a proper part. */
  lemma PartialOnlyOnce(config: RunConfig, r: Record, s: Snapshot)
    requires QuantityBalances(r) && Exit(config, r, s).reason == Some(TakeProfitPartial)
    ensures !r.partialExitDone
    ensures Exit(config, r, s).exitPrice == Some(r.position.takeProfit1)
    ensures 0.0 < config.risk.partialExitPct < 1.0
    ensures PartialQty(config, r, Exit(config, r, s)) == Share(r.position.size, config.risk.partialExitPct)
    ensures 0.0 < PartialQty(config, r, Exit(config, r, s)) < r.position.size
  {
    var pct := config.risk.partialExitPct;
    assert Exit(config, r, s).partialPct == Some(pct);
    ShareIsProper(r.position.size, pct);
    hide Share;
  }

  lemma ShareIsProper(size: real, pct: real)
    requires size > 0.0 && 0.0 < pct < 1.0
    ensures 0.0 < Share(size, pct) < size
  {
    ProperPart(size, pct);
    var part := size * pct;
    assert part < size;
    assert Min(part, size) == part;
  }

  lemma ReducedIsBalanced(config: RunConfig, r: Record, qty: real, price: real, now: int, high: real, low: real)
    requires Balanced(config, r) && !r.partialExitDone
    requires qty == Share(r.position.size, config.risk.partialExitPct) && 0.0 < qty < r.position.size
    requires price == r.position.takeProfit1
    requires Simulate(config.fill, price, qty, Market, ExitSide(r.position.direction)).Ok?
    ensures var exit := Simulate(config.fill, price, qty, Market, ExitSide(r.position.direction)).value;
            var reduced := Reduced(r, qty, exit, now, high, low);
            Balanced(config, reduced) && reduced.position.size == r.position.size - qty
            && reduced.position.stopLoss == reduced.position.entryPrice == r.position.entryPrice
  {
    var exit := Simulate(config.fill, price, qty, Market, ExitSide(r.position.direction)).value;
    if SaneSlippage(config.fill, Market) {
      FilledPriceNotNegative(config, price, qty, ExitSide(r.position.direction));
      ProductNonNegative(exit.filledPrice, qty);
    }
    assert exit.feePaid == Fee(Notional(exit.filledPrice, qty), ExitRate(config));
    TwoLegs(r.position.(size := qty), r.exitNotionalSum, r.closedQty, exit.filledPrice, ExitRate(config));
    LegIgnoresStop(config, r.position, Reduced(r, qty, exit, now, high, low).position, r.initialSize);
    SoldShare(config, r, qty, exit);
    hide Share, FilledAt, Notional, Fee, RiskEngine.PnlAbs, RiskEngine.MaeMfe, RiskEngine.PnlR, PartialLeg, Slippage;
  }

  lemma SoldShare(config: RunConfig, r: Record, qty: real, exit: FillResult)
    requires qty == Share(r.initialSize, config.risk.partialExitPct)
    requires exit.filledPrice
             == FilledAt(r.position.takeProfit1, Slippage(config.fill, Market), ExitSide(r.position.direction))
    ensures PartialLeg(config, r.position, r.initialSize)
            == RiskEngine.PnlAbs(r.position.(size := qty), exit.filledPrice)
  {
    hide Share, FilledAt, RiskEngine.PnlAbs;
  }

  lemma FilledPriceNotNegative(config: RunConfig, price: real, qty: real, side: Side)
    requires SaneSlippage(config.fill, Market) && Simulate(config.fill, price, qty, Market, side).Ok?
    ensures Simulate(config.fill, price, qty, Market, side).value.filledPrice >= 0.0
  {
    var slip := Slippage(config.fill, Market);
    ProductNonNegative(price, 1.0 - slip);
    ProductNonNegative(price, 1.0 + slip);
  }

  /** Every bar keeps the books of a surviving position balanced, and no position is ever dropped
      without a trade: the branch for an emptied position cannot be reached. */
  lemma StepKeepsBalance(config: RunConfig, rows: seq<RawFunding>, r: Record, s: Snapshot)
    requires Balanced(config, r) && StepRecord(config, rows, r, s).Ok?
    ensures !StepRecord(config, rows, r, s).value.Dropped?
    ensures StepRecord(config, rows, r, s).value.Kept? ==> Balanced(config, StepRecord(config, rows, r, s).value.record)
  {
    MarkedKeeps(config, rows, r, s);
    var m := Marked(config, rows, r, s);
    if Exit(config, m, s).reason == Some(TakeProfitPartial) {
      PartialOnlyOnce(config, m, s);
      var candle := LatestCandle(s);
      ReducedIsBalanced(config, m, PartialQty(config, m, Exit(config, m, s)), m.position.takeProfit1, s.timestamp,
                        candle.high, candle.low);
    }
    hide Marked, Exit, Balanced, PartialQty, Reduced, Settle;
  }

  /** After the partial exit the stop never moves against the trader, stays at least at the filled
      entry, and nothing more is sold before the position is settled. */
  lemma StopRatchets(config: RunConfig, rows: seq<RawFunding>, r: Record, s: Snapshot)
    requires Balanced(config, r) && r.partialExitDone
    requires StepRecord(config, rows, r, s).Ok? && StepRecord(config, rows, r, s).value.Kept?
    ensures var r' := StepRecord(config, rows, r, s).value.record;
            && r'.partialExitDone
            && r'.position == r.position.(stopLoss := r'.position.stopLoss)
            && r.position.direction.Signed(r'.position.stopLoss - r.position.stopLoss) >= 0.0
            && r.position.direction.Signed(r'.position.stopLoss - r.position.entryPrice) >= 0.0
  {
    MarkedKeeps(config, rows, r, s);
    var m := Marked(config, rows, r, s);
    if Exit(config, m, s).reason == Some(TakeProfitPartial) {
      PartialOnlyOnce(config, m, s);
    }
    hide Marked, Settle, TakePartial;
  }

  // ---------------------------------------------------------------- the trade that is written

  /** Profit before fees and funding, as the trade's own fields give it. */
  function Gross(t: TradeLog): real {
    t.pnlAbs + t.fees + t.fundingPaid
  }

  /** Profit before costs recomputed from the trade's entry price, exit price and size. */
  function GrossFromPrices(t: TradeLog): real {
    t.direction.Signed((t.exitPrice - t.entryPrice) * t.size)
  }

  function FeesFromPrices(config: RunConfig, t: TradeLog): real {
    Fee(Notional(t.entryPrice, t.size), EntryRate(config)) + Fee(Notional(t.exitPrice, t.size), ExitRate(config))
  }

  /** The notional both legs were sold for. */
  function ExitNotional(config: RunConfig, r: Record, price: real): real
    requires Simulate(config.fill, price, r.position.size, Market, ExitSide(r.position.direction)).Ok?
  {
    r.exitNotionalSum + Notional(ExitFill(config, r, price).filledPrice, r.position.size)
  }

  function ExitFill(config: RunConfig, r: Record, price: real): FillResult
    requires Simulate(config.fill, price, r.position.size, Market, ExitSide(r.position.direction)).Ok?
  {
    Simulate(config.fill, price, r.position.size, Market, ExitSide(r.position.direction)).value
  }

  /** What settlement copies and what it adds up, field by field. */
  lemma SettledFields(config: RunConfig, r: Record, price: real, reason: ExitReason, now: int)
    requires Settle(config.fill, r, price, reason, now).Ok?
    ensures Simulate(config.fill, price, r.position.size, Market, ExitSide(r.position.direction)).Ok?
    ensures var t := Settle(config.fill, r, price, reason, now).value.trade;
            var exit := ExitFill(config, r, price);
            && t.fees == r.totalFees + exit.feePaid
            && t.pnlAbs == r.realizedPnlAbsGross
                + RiskEngine.PnlAbs(r.position, exit.filledPrice) - t.fees - r.fundingPaid
            && t.exitPrice == EffectivePrice(ExitNotional(config, r, price), r.closedQty + r.position.size)
            && t.size == r.initialSize && t.entryPrice == r.position.entryPrice && t.direction == r.position.direction
            && t.fundingPaid == r.fundingPaid && t.exitReason == reason && t.closedAt == now && t.tradeId == r.tradeId
            && t.openedAt == r.position.openedAt
    ensures var c := Settle(config.fill, r, price, reason, now).value;
            && c.candidate == r.candidate && c.executable == r.executable
            && c.position == r.position.(size := r.initialSize, stopLoss := r.initialStopLoss,
                                         status := PositionStatus.Closed, updatedAt := now)
  {
    hide RiskEngine.MaeMfe, RiskEngine.PnlR, RiskEngine.PnlAbs, Average, PerRisk, Simulate, Notional, EffectivePrice;
  }

  /** Both legs together, in terms of what they were sold for. */
  lemma TwoLegs(position: Position, soldFor: real, sold: real, price: real, rate: real)
    ensures position.direction.Signed(soldFor - Notional(position.entryPrice, sold))
            + RiskEngine.PnlAbs(position, price)
         == position.direction.Signed(
              soldFor + Notional(price, position.size) - Notional(position.entryPrice, sold + position.size))
    ensures Fee(soldFor + Notional(price, position.size), rate)
            == Fee(soldFor, rate) + Fee(Notional(price, position.size), rate)
  {
  }

  /** Settlement in terms of the notional of the legs, before the effective price enters. */
  lemma SettledFromNotional(config: RunConfig, r: Record, price: real, reason: ExitReason, now: int)
    requires Balanced(config, r) && Settle(config.fill, r, price, reason, now).Ok?
    ensures Simulate(config.fill, price, r.position.size, Market, ExitSide(r.position.direction)).Ok?
    ensures var t := Settle(config.fill, r, price, reason, now).value.trade;
            var notional := ExitNotional(config, r, price);
            && Gross(t) == t.direction.Signed(notional - Notional(t.entryPrice, t.size))
            && t.fees == Fee(Notional(t.entryPrice, t.size), EntryRate(config)) + Fee(notional, ExitRate(config))
            && t.exitPrice == EffectivePrice(notional, t.size)
  {
    SettledFields(config, r, price, reason, now);
    var exit := ExitFill(config, r, price);
    assert exit.feePaid == Fee(Notional(exit.filledPrice, r.position.size), ExitRate(config));
    TwoLegs(r.position, r.exitNotionalSum, r.closedQty, exit.filledPrice, ExitRate(config));
    hide Settle, Simulate, StopConsistent, ShareSold, Notional, Fee, EffectivePrice, RiskEngine.PnlAbs;
  }

  /** The exit price of a trade reproduces the money of both legs exactly when the position was at
      least 1e-8 in size; below that the guard in the division distorts it. */
  lemma EffectivePriceConserves(config: RunConfig, r: Record, price: real, reason: ExitReason, now: int)
    requires Balanced(config, r) && Settle(config.fill, r, price, reason, now).Ok?
    requires SaneSlippage(config.fill, Market) && SlippageBps(config.fill, Market) < BPS
    ensures var t := Settle(config.fill, r, price, reason, now).value.trade;
            && (Gross(t) == GrossFromPrices(t) <==> t.size >= TINY)
            && (t.size >= TINY ==> t.fees == FeesFromPrices(config, t))
  {
    SettledFields(config, r, price, reason, now);
    SettledFromNotional(config, r, price, reason, now);
    NotionalPositive(config, r, price);
    var t := Settle(config.fill, r, price, reason, now).value.trade;
    GuardedQuotient(ExitNotional(config, r, price), t.size);
    GrossInNotionals(t);
    hide GrossFromPrices, Settle, ExitNotional, Simulate, Balanced, Notional, Fee, EffectivePrice;
  }

  /** A long of a billionth of a unit, opened and closed without fees or slippage: what it made is not
      what its prices say. */
  lemma TinyPositionExample(config: RunConfig, c: SignalCandidate, reason: ExitReason)
    requires config.fill == FillModelConfig(0.0, 0.0, 0.0, 0.0) && config.entryOrderType.Market?
    ensures var x := ExecutableSignal(1, 0, Long, 1.0, 0.5, 2.0, 3.0, 2.0);
            var record := Opened(config, 0, c, x, 0.000000001, 1, 1, 1);
            && record.Ok?
            && Settle(config.fill, record.value, 1.0, reason, 1).Ok?
            && Gross(Settle(config.fill, record.value, 1.0, reason, 1).value.trade)
               != GrossFromPrices(Settle(config.fill, record.value, 1.0, reason, 1).value.trade)
  {
    var x := ExecutableSignal(1, 0, Long, 1.0, 0.5, 2.0, 3.0, 2.0);
    var record := Opened(config, 0, c, x, 0.000000001, 1, 1, 1);
    assert record.Ok? && record.value.initialSize < TINY && record.value.position.size > 0.0;
    OpenedIsBalanced(config, 0, c, x, 0.000000001, 1, 1, 1);
    hide Opened, Balanced, Gross, GrossFromPrices, FilledAt, Fee, Notional, FeesFromPrices;
    SettledSize(config, record.value, 1.0, reason, 1);
    hide Settle, Simulate;
    EffectivePriceConserves(config, record.value, 1.0, reason, 1);
  }

  lemma SettledSize(config: RunConfig, r: Record, price: real, reason: ExitReason, now: int)
    requires price > 0.0 && r.position.size > 0.0
    ensures Settle(config.fill, r, price, reason, now).Ok?
    ensures Settle(config.fill, r, price, reason, now).value.trade.size == r.initialSize
  {
    hide RiskEngine.BuildSettlementMetrics, EffectivePrice, PerRisk, Average;
  }

  /** The R multiple of a trade, times what the initial stop put at risk, is its net result, unless the
      risk is below the guard. */
  lemma RMultipleTellsTheRisk(config: RunConfig, r: Record, price: real, reason: ExitReason, now: int)
    requires Balanced(config, r) && Settle(config.fill, r, price, reason, now).Ok?
    ensures var c := Settle(config.fill, r, price, reason, now).value;
            var risk := Notional(Abs(c.trade.entryPrice - c.position.stopLoss), c.trade.size);
            && c.position.stopLoss == r.initialStopLoss
            && (risk >= TINY ==> Notional(c.trade.pnlR, risk) == c.trade.pnlAbs)
  {
    var c := Settle(config.fill, r, price, reason, now).value;
    QuotientTimes(c.trade.pnlAbs, Max(Notional(Abs(c.trade.entryPrice - r.initialStopLoss), c.trade.size), TINY));
    hide Balanced, RiskEngine.PnlAbs, RiskEngine.MaeMfe, Simulate, EffectivePrice, Average, Fee;
  }

  lemma GrossInNotionals(t: TradeLog)
    ensures GrossFromPrices(t) == t.direction.Signed(Notional(t.exitPrice, t.size) - Notional(t.entryPrice, t.size))
  {
  }

  lemma GuardedQuotient(notional: real, size: real)
    requires notional > 0.0 && size > 0.0
    ensures Notional(EffectivePrice(notional, size), size) == notional <==> size >= TINY
  {
    var price := notional / Max(size, TINY);
    QuotientTimes(notional, Max(size, TINY));
    if size < TINY {
      if price <= 0.0 {
        ProductMonotone(price, 0.0, TINY);
      }
      ProductStrict(size, TINY, price);
    }
  }

  lemma NotionalPositive(config: RunConfig, r: Record, price: real)
    requires Balanced(config, r) && SaneSlippage(config.fill, Market) && SlippageBps(config.fill, Market) < BPS
    requires Simulate(config.fill, price, r.position.size, Market, ExitSide(r.position.direction)).Ok?
    ensures ExitNotional(config, r, price) > 0.0
  {
    var slip := Slippage(config.fill, Market);
    ProductStrict(0.0, price, 1.0 - slip);
    ProductStrict(0.0, price, 1.0 + slip);
    var fill := Simulate(config.fill, price, r.position.size, Market, ExitSide(r.position.direction)).value;
    assert fill.filledPrice > 0.0;
    ProductStrict(0.0, fill.filledPrice, r.position.size);
  }

  /** Closing at the trailing stop gives back at most the exit slippage on the entry notional of
      what was still open; the part sold earlier keeps its profit. */
  ghost predicate TrailingLegKeepsProfit(config: RunConfig, c: ClosedTradeRecord) {
    c.trade.exitReason.TrailingStop? && SaneSlippage(config.fill, Market) ==>
      Gross(c.trade) >= PartialLeg(config, c.position, c.trade.size)
                        - Fee(Notional(c.trade.entryPrice, Remaining(config, c.trade.size)),
                              Slippage(config.fill, Market))
  }

  lemma TrailingLegFloor(config: RunConfig, r: Record, s: Snapshot)
    requires Balanced(config, r) && Exit(config, r, s).exitPrice.Some? && Exit(config, r, s).reason.Some?
    requires Settle(config.fill, r, Exit(config, r, s).exitPrice.value, Exit(config, r, s).reason.value,
                    s.timestamp).Ok?
    ensures TrailingLegKeepsProfit(config,
                                   Settle(config.fill, r, Exit(config, r, s).exitPrice.value,
                                          Exit(config, r, s).reason.value, s.timestamp).value)
  {
    var price, reason := Exit(config, r, s).exitPrice.value, Exit(config, r, s).reason.value;
    SettledFields(config, r, price, reason, s.timestamp);
    if reason.TrailingStop? {
      TrailingExit(config, r, s);
      hide Exit;
      TrailingLeg(config, r);
      LegIgnoresStop(config, r.position, Settle(config.fill, r, price, reason, s.timestamp).value.position,
                     r.initialSize);
    }
    hide Exit, Settle, Simulate, Notional, Fee, RiskEngine.PnlAbs, Share, PartialLeg;
  }

  lemma TrailingExit(config: RunConfig, r: Record, s: Snapshot)
    requires Exit(config, r, s).reason == Some(TrailingStop)
    ensures r.partialExitDone && Exit(config, r, s).exitPrice == Some(r.position.stopLoss)
  {
  }

  lemma LegIgnoresStop(config: RunConfig, p: Position, p': Position, size: real)
    requires p'.direction == p.direction && p'.entryPrice == p.entryPrice && p'.takeProfit1 == p.takeProfit1
    ensures PartialLeg(config, p', size) == PartialLeg(config, p, size)
  {
    hide Share, FilledAt;
  }

  /** The two legs of a position stopped out after its partial exit. */
  lemma TrailingLeg(config: RunConfig, r: Record)
    requires Balanced(config, r) && r.partialExitDone
    requires Simulate(config.fill, r.position.stopLoss, r.position.size, Market, ExitSide(r.position.direction)).Ok?
    ensures SaneSlippage(config.fill, Market) ==>
              r.realizedPnlAbsGross + RiskEngine.PnlAbs(r.position,
                                                        ExitFill(config, r, r.position.stopLoss).filledPrice)
              >= PartialLeg(config, r.position, r.initialSize)
                 - Fee(Notional(r.position.entryPrice, Remaining(config, r.initialSize)), Slippage(config.fill, Market))
  {
    if SaneSlippage(config.fill, Market) {
      ExitAtStop(config, r.position);
    }
    hide Simulate, Notional, Fee, RiskEngine.PnlAbs, Share, PartialLeg, Slippage;
  }

  lemma ExitAtStop(config: RunConfig, p: Position)
    requires SaneSlippage(config.fill, Market) && p.size > 0.0
    requires p.direction.Signed(p.stopLoss - p.entryPrice) >= 0.0
    requires Simulate(config.fill, p.stopLoss, p.size, Market, ExitSide(p.direction)).Ok?
    ensures RiskEngine.PnlAbs(p,
                              Simulate(config.fill, p.stopLoss, p.size, Market,
                                       ExitSide(p.direction)).value.filledPrice)
         >= -Fee(Notional(p.entryPrice, p.size), Slippage(config.fill, Market))
  {
    var e, x, q, slip := p.entryPrice, p.stopLoss, p.size, Slippage(config.fill, Market);
    if p.direction.Long? {
      ProductMonotone(e, x, 1.0 - slip);
      ProductMonotone(-(e * slip), x * (1.0 - slip) - e, q);
    } else {
      ProductMonotone(x, e, 1.0 + slip);
      ProductMonotone(-(e * slip), e - x * (1.0 + slip), q);
    }
  }

  // ---------------------------------------------------------------- funding

  /** Funding charged so far is what the samples in each phase of the holding owe: the full size up
      to and including the partial-exit bar, the remainder after it. */
  ghost predicate FundingAccounted(rows: seq<RawFunding>, r: Record) {
    var p := r.position;
    var full := Notional(p.entryPrice, r.initialSize);
    if r.partialExitDone then
      && p.openedAt <= p.updatedAt <= LastAccrual(r)
      && r.fundingPaid == FundingPaid(p.direction, full, p.openedAt, p.updatedAt, rows)
                          + FundingPaid(p.direction, Notional(p.entryPrice, p.size), p.updatedAt, LastAccrual(r), rows)
    else
      && p.openedAt <= LastAccrual(r)
      && r.fundingPaid == FundingPaid(p.direction, full, p.openedAt, LastAccrual(r), rows)
  }

  lemma AccrualExtends(config: RunConfig, rows: seq<RawFunding>, r: Record, until: int)
    requires Balanced(config, r) && FundingAccounted(rows, r) && LastAccrual(r) <= until
    ensures FundingAccounted(rows, Accrued(r, rows, until)) && LastAccrual(Accrued(r, rows, until)) == until
  {
    var p := r.position;
    var since := if r.partialExitDone then p.updatedAt else p.openedAt;
    var n := Notional(p.entryPrice, p.size);
    FundingSplits(p.direction, n, since, LastAccrual(r), until, rows);
    assert !r.partialExitDone ==> p.size == r.initialSize;
    NoFundingOnNothing(p.direction, n, LastAccrual(r), until, rows);
    hide FundingPaid, Notional, MoneyBalances, ShareSold;
  }

  lemma NoFundingOnNothing(direction: Direction, notional: real, since: int, until: int, rows: seq<RawFunding>)
    ensures notional <= 0.0 || until <= since ==> FundingPaid(direction, notional, since, until, rows) == 0.0
  {
  }

  /** When the position took its partial exit, if it did. */
  function SplitOf(r: Record): Option<int> {
    if r.partialExitDone then Some(r.position.updatedAt) else None
  }

  /** At this bar the exit rules ask for the partial exit. */
  predicate TakesPartial(config: RunConfig, rows: seq<RawFunding>, r: Record, s: Snapshot) {
    Exit(config, Marked(config, rows, r, s), s).reason == Some(TakeProfitPartial)
  }

  /** What a trade was charged: without a partial exit, funding on the full size over the whole holding
      interval; with one, on the full size up to and including its bar and on the remainder after it. */
  ghost predicate FundingCharged(config: RunConfig, rows: seq<RawFunding>, t: TradeLog, split: Option<int>) {
    var full := Notional(t.entryPrice, t.size);
    match split
    case None => t.fundingPaid == FundingPaid(t.direction, full, t.openedAt, t.closedAt, rows)
    case Some(at) =>
      && t.openedAt <= at <= t.closedAt
      && t.fundingPaid == FundingPaid(t.direction, full, t.openedAt, at, rows)
                          + FundingPaid(t.direction, Notional(t.entryPrice, Remaining(config, t.size)),
                                        at, t.closedAt, rows)
  }

  lemma SettledFunding(config: RunConfig, rows: seq<RawFunding>, r: Record, price: real, reason: ExitReason, now: int)
    requires Balanced(config, r) && FundingAccounted(rows, r) && LastAccrual(r) == now
    requires Settle(config.fill, r, price, reason, now).Ok?
    ensures FundingCharged(config, rows, Settle(config.fill, r, price, reason, now).value.trade, SplitOf(r))
  {
    SettledFields(config, r, price, reason, now);
    hide Settle, FundingPaid, Notional, MoneyBalances, Share;
  }

  /** What a bar does to the partial exit of a position: it happens once, at the bar whose exit asks for
      it, and the reason of the final exit tells whether it happened. */
  lemma StepTellsPartial(config: RunConfig, rows: seq<RawFunding>, r: Record, s: Snapshot)
    requires Balanced(config, r) && StepRecord(config, rows, r, s).Ok?
    ensures var outcome := StepRecord(config, rows, r, s).value;
            && (TakesPartial(config, rows, r, s) ==> outcome.Kept? && SplitOf(r).None?)
            && (outcome.Kept? ==>
                  SplitOf(outcome.record) == if TakesPartial(config, rows, r, s) then Some(s.timestamp) else SplitOf(r))
            && (outcome.Settled? ==>
                  && (outcome.closed.trade.exitReason.TrailingStop? ==> SplitOf(r).Some?)
                  && (outcome.closed.trade.exitReason.StopLoss? ==> SplitOf(r).None?)
                  && (outcome.closed.trade.exitReason.TakeProfit? ==> SplitOf(r).None?))
  {
    MarkedKeeps(config, rows, r, s);
    MarkedSplit(config, rows, r, s);
    StepKeepsBalance(config, rows, r, s);
    var m := Marked(config, rows, r, s);
    var decision := Exit(config, m, s);
    ReasonTellsPartial(config, m, s);
    if decision.reason == Some(TakeProfitPartial) {
      PartialOnlyOnce(config, m, s);
    } else if decision.shouldClose && decision.exitPrice.Some? && decision.reason.Some? {
      SettledFields(config, m, decision.exitPrice.value, decision.reason.value, s.timestamp);
    }
    hide Marked, Exit, Balanced, Settle, PartialQty, Simulate;
  }

  lemma MarkedSplit(config: RunConfig, rows: seq<RawFunding>, r: Record, s: Snapshot)
    ensures SplitOf(Marked(config, rows, r, s)) == SplitOf(r)
  {
    hide FundingPaid, Notional, TrailDistance, OrLatest, AppendCandle;
  }

  lemma ReasonTellsPartial(config: RunConfig, r: Record, s: Snapshot)
    ensures Exit(config, r, s).reason == Some(TrailingStop) ==> r.partialExitDone
    ensures Exit(config, r, s).reason == Some(StopLoss) ==> !r.partialExitDone
    ensures Exit(config, r, s).reason == Some(TakeProfit) ==> !r.partialExitDone
  {
  }

  lemma MarkedFunding(config: RunConfig, rows: seq<RawFunding>, r: Record, s: Snapshot)
    requires Balanced(config, r) && FundingAccounted(rows, r) && LastAccrual(r) <= s.timestamp
    ensures FundingAccounted(rows, Marked(config, rows, r, s)) && LastAccrual(Marked(config, rows, r, s)) == s.timestamp
  {
    AccrualExtends(config, rows, r, s.timestamp);
    hide FundingPaid, Notional, Balanced, TrailDistance, OrLatest, AppendCandle, Accrued;
  }

  lemma ReducedFunding(rows: seq<RawFunding>, r: Record, qty: real, exit: FillResult, now: int, high: real, low: real)
    requires !r.partialExitDone && FundingAccounted(rows, r) && LastAccrual(r) == now
    ensures FundingAccounted(rows, Reduced(r, qty, exit, now, high, low))
            && LastAccrual(Reduced(r, qty, exit, now, high, low)) == now
  {
    var reduced := Reduced(r, qty, exit, now, high, low);
    NoFundingOnNothing(r.position.direction, Notional(r.position.entryPrice, reduced.position.size), now, now, rows);
    hide FundingPaid, Notional;
  }

  /** A bar no earlier than the last one keeps funding accounted for, and a trade closed at it was
      charged for exactly the samples of its holding interval. */
  lemma StepKeepsFunding(config: RunConfig, rows: seq<RawFunding>, r: Record, s: Snapshot)
    requires Balanced(config, r) && FundingAccounted(rows, r) && LastAccrual(r) <= s.timestamp
    requires StepRecord(config, rows, r, s).Ok?
    ensures var outcome := StepRecord(config, rows, r, s).value;
            && (outcome.Kept? ==> FundingAccounted(rows, outcome.record) && LastAccrual(outcome.record) == s.timestamp)
            && (outcome.Settled? ==>
                  && FundingCharged(config, rows, outcome.closed.trade, SplitOf(r))
                  && outcome.closed.trade.closedAt == s.timestamp)
  {
    MarkedKeeps(config, rows, r, s);
    MarkedSplit(config, rows, r, s);
    MarkedFunding(config, rows, r, s);
    var m := Marked(config, rows, r, s);
    var decision := Exit(config, m, s);
    if decision.reason == Some(TakeProfitPartial) {
      PartialOnlyOnce(config, m, s);
      var qty, candle := PartialQty(config, m, decision), LatestCandle(s);
      var fill := Simulate(config.fill, decision.exitPrice.value, qty, Market, ExitSide(m.position.direction)).value;
      ReducedFunding(rows, m, qty, fill, s.timestamp, candle.high, candle.low);
    } else if decision.shouldClose && decision.exitPrice.Some? && decision.reason.Some? {
      SettledFunding(config, rows, m, decision.exitPrice.value, decision.reason.value, s.timestamp);
      SettledFields(config, m, decision.exitPrice.value, decision.reason.value, s.timestamp);
    }
    hide Marked, Exit, Balanced, FundingAccounted, FundingCharged, PartialQty, Reduced, Settle, LastAccrual, SplitOf;
  }

  // ---------------------------------------------------------------- what never changes

  /** What a bar never changes about a position, and what the trade inherits. */
  lemma StepKeepsIdentity(config: RunConfig, rows: seq<RawFunding>, r: Record, s: Snapshot)
    requires Balanced(config, r) && StepRecord(config, rows, r, s).Ok?
    ensures var outcome := StepRecord(config, rows, r, s).value;
            && (outcome.Kept? ==>
                  var r' := outcome.record;
                  && r'.tradeId == r.tradeId && r'.executable == r.executable && r'.candidate == r.candidate
                  && r'.initialSize == r.initialSize && r'.initialStopLoss == r.initialStopLoss
                  && r'.position == r.position.(size := r'.position.size, status := r'.position.status,
                                                stopLoss := r'.position.stopLoss, updatedAt := r'.position.updatedAt))
            && (outcome.Settled? ==>
                  var t := outcome.closed.trade;
                  && t.tradeId == r.tradeId && t.openedAt == r.position.openedAt && t.closedAt == s.timestamp
                  && t.direction == r.position.direction && !t.exitReason.EndOfBacktest?
                  && !t.exitReason.TakeProfitPartial?
                  && outcome.closed.position.leverage == r.position.leverage
                  && outcome.closed.candidate == r.candidate)
  {
    MarkedKeeps(config, rows, r, s);
    var m := Marked(config, rows, r, s);
    var decision := Exit(config, m, s);
    if decision.reason == Some(TakeProfitPartial) {
      PartialOnlyOnce(config, m, s);
    } else if decision.shouldClose && decision.exitPrice.Some? && decision.reason.Some? {
      SettledFields(config, m, decision.exitPrice.value, decision.reason.value, s.timestamp);
    }
    assert decision.reason != Some(EndOfBacktest);
    hide Marked, Exit, Balanced, Settle, PartialQty, Simulate;
  }

  /** A settled position is the marked one, settled at the price and for the reason of the exit rule. */
  lemma SettledFrom(config: RunConfig, rows: seq<RawFunding>, r: Record, s: Snapshot)
    requires Balanced(config, r) && StepRecord(config, rows, r, s).Ok? && StepRecord(config, rows, r, s).value.Settled?
    ensures var m := Marked(config, rows, r, s);
            && Balanced(config, m)
            && Exit(config, m, s).exitPrice.Some? && Exit(config, m, s).reason.Some?
            && Settle(config.fill, m, Exit(config, m, s).exitPrice.value, Exit(config, m, s).reason.value, s.timestamp)
               == Ok(StepRecord(config, rows, r, s).value.closed)
  {
    MarkedKeeps(config, rows, r, s);
    hide Marked, Exit, Balanced, Settle, PartialQty, Simulate, Reduced;
  }

  lemma ForceClosedFrom(config: RunConfig, rows: seq<RawFunding>, r: Record, now: int, price: real) returns (m: Record)
    requires Balanced(config, r) && ForceClosed(config, rows, r, now, price).Ok?
    ensures Balanced(config, m) && m.tradeId == r.tradeId && m.position == r.position && SplitOf(m) == SplitOf(r)
    ensures m.candidate == r.candidate && m.partialExitDone == r.partialExitDone
    ensures m.initialStopLoss == r.initialStopLoss
    ensures Settle(config.fill, m, price, EndOfBacktest, now) == ForceClosed(config, rows, r, now, price)
    ensures FundingAccounted(rows, r) && LastAccrual(r) <= now ==> FundingAccounted(rows, m) && LastAccrual(m) == now
  {
    var accrued := Accrued(r, rows, now);
    var path := AppendCandle(accrued.candlesPath, ClosingCandle(now, price));
    m := accrued.(candlesPath := path);
    AccruedKeeps(config, rows, r, now);
    PathIsIrrelevant(config, rows, accrued, path);
    if FundingAccounted(rows, r) && LastAccrual(r) <= now {
      AccrualExtends(config, rows, r, now);
    }
    hide Balanced, FundingAccounted, Accrued, AppendCandle, Settle, LastAccrual;
  }

  lemma AccruedKeeps(config: RunConfig, rows: seq<RawFunding>, r: Record, until: int)
    requires Balanced(config, r)
    ensures Balanced(config, Accrued(r, rows, until))
    ensures Accrued(r, rows, until).tradeId == r.tradeId && Accrued(r, rows, until).position == r.position
    ensures Accrued(r, rows, until).partialExitDone == r.partialExitDone
    ensures Accrued(r, rows, until).candidate == r.candidate
    ensures Accrued(r, rows, until).initialStopLoss == r.initialStopLoss
  {
    hide FundingPaid, Notional, Fee, Share, PartialLeg;
  }

  lemma PathIsIrrelevant(config: RunConfig, rows: seq<RawFunding>, r: Record, path: seq<Candle>)
    ensures Balanced(config, r.(candlesPath := path)) == Balanced(config, r)
    ensures FundingAccounted(rows, r.(candlesPath := path)) == FundingAccounted(rows, r)
    ensures LastAccrual(r.(candlesPath := path)) == LastAccrual(r)
  {
    hide FundingPaid, Notional, Fee, Share, PartialLeg;
  }
}
