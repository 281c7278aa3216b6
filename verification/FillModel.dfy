/** Fills with static slippage and fee rates (backtest/fill_model.py). */
module FillModel {
  import opened Prelude
  import opened Models

  datatype FillModelConfig = FillModelConfig(
    slippageBpsLimit: real,
    slippageBpsMarket: real,
    feeRateMaker: real,
    feeRateTaker: real)

  datatype FillResult = FillResult(filledPrice: real, slippageBps: real, feePaid: real)

  const BPS: real := 10000.0

  function SlippageBps(config: FillModelConfig, orderType: OrderType): real {
    if orderType.Limit? then config.slippageBpsLimit else config.slippageBpsMarket
  }

  function FeeRate(config: FillModelConfig, orderType: OrderType): real {
    if orderType.Limit? then config.feeRateMaker else config.feeRateTaker
  }

  /** The slippage as a fraction of the price. */
  function Slippage(config: FillModelConfig, orderType: OrderType): real {
    SlippageBps(config, orderType) / BPS
  }

  function Notional(price: real, qty: real): real {
    price * qty
  }

  function Fee(notional: real, rate: real): real {
    notional * rate
  }

  /** A buyer pays more than the requested price, a seller gets less. */
  function FilledAt(price: real, slip: real, side: Side): real {
    Notional(price, if side.Buy? then 1.0 + slip else 1.0 - slip)
  }

  function Simulate(config: FillModelConfig, price: real, qty: real, orderType: OrderType,
                    side: Side): Result<FillResult> {
    if price <= 0.0 then Err(NonPositivePrice)
    else if qty <= 0.0 then Err(NonPositiveQty)
    else if orderType.Unsupported? then Err(UnsupportedOrderType)
    else
      var filled := FilledAt(price, Slippage(config, orderType), side);
      Ok(FillResult(filled, SlippageBps(config, orderType), Fee(Notional(filled, qty), FeeRate(config, orderType))))
  }

  /** The side that opens a position in this direction, and the one that closes it. */
  function EntrySide(d: Direction): Side {
    if d.Long? then Buy else Sell
  }

  function ExitSide(d: Direction): Side {
    if d.Long? then Sell else Buy
  }

  /** Slippage is never in the trader's favour and never eats the whole price. */
  predicate SaneSlippage(config: FillModelConfig, orderType: OrderType) {
    0.0 <= SlippageBps(config, orderType) <= BPS
  }

  /** Entering and leaving both cost: a fill sits on the losing side of the requested price by
      exactly the slippage fraction. */
  lemma FillsAgainstTrader(config: FillModelConfig, price: real, qty: real, orderType: OrderType, d: Direction)
    requires SaneSlippage(config, orderType)
    requires price > 0.0 && qty > 0.0 && !orderType.Unsupported?
    ensures var entry := Simulate(config, price, qty, orderType, EntrySide(d));
            entry.Ok? && d.Signed(entry.value.filledPrice - price) == price * Slippage(config, orderType) >= 0.0
    ensures var exit := Simulate(config, price, qty, orderType, ExitSide(d));
            exit.Ok? && d.Signed(price - exit.value.filledPrice) == price * Slippage(config, orderType) >= 0.0
  {
    var slip := Slippage(config, orderType);
    assert price * (1.0 + slip) == price + price * slip;
    assert price * (1.0 - slip) == price - price * slip;
  }

  /** A limit order moves the price by the limit slippage and pays the maker rate, a market order the market slippage
      and the taker rate; ten thousand basis points are the whole price. */
  lemma FillsInPlainTerms(config: FillModelConfig, price: real, qty: real, limitOrder: bool, side: Side)
    requires price > 0.0 && qty > 0.0
    ensures var bps := if limitOrder then config.slippageBpsLimit else config.slippageBpsMarket;
            var rate := if limitOrder then config.feeRateMaker else config.feeRateTaker;
            var factor := if side == Buy then 1.0 + bps / 10000.0 else 1.0 - bps / 10000.0;
            Simulate(config, price, qty, if limitOrder then Limit else Market, side)
            == Ok(FillResult(Notional(price, factor), bps, Fee(Notional(Notional(price, factor), qty), rate)))
  {
    hide Notional, Fee;
  }

  /** Buying two at a hundred with ten basis points and a rate of a tenth of a percent costs 100.1 each and 0.2002. */
  lemma FillExample()
    ensures Simulate(FillModelConfig(1.0, 10.0, 0.0002, 0.001), 100.0, 2.0, Market, Buy)
         == Ok(FillResult(100.1, 10.0, 0.2002))
    ensures Simulate(FillModelConfig(1.0, 10.0, 0.0002, 0.001), 100.0, 2.0, Limit, Sell)
         == Ok(FillResult(99.99, 1.0, 0.039996))
  {
  }

  /** What is refused: a price or a quantity that is not positive, in that order, and an unknown order type. */
  lemma RefusedFills(config: FillModelConfig, price: real, qty: real, orderType: OrderType, side: Side)
    ensures Simulate(config, price, qty, orderType, side) == Err(NonPositivePrice) <==> price <= 0.0
    ensures Simulate(config, price, qty, orderType, side) == Err(NonPositiveQty) <==> price > 0.0 && qty <= 0.0
    ensures Simulate(config, price, qty, orderType, side) == Err(UnsupportedOrderType)
       <==> price > 0.0 && qty > 0.0 && orderType == Unsupported
    ensures Simulate(config, price, qty, orderType, side).Ok?
       <==> price > 0.0 && qty > 0.0 && (orderType == Limit || orderType == Market)
  {
  }
}
