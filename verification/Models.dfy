/** The value types that pass between the decision engines and the ledger (core/models.py). */
module Models {
  import opened Prelude

  datatype Direction = Long | Short {
    /** `x` seen from this side of the market: a short gains what a long loses. */
    function Signed(x: real): real {
      if Long? then x else -x
    }
  }

  datatype SweepSide = Low | High

  datatype PositionStatus = Open | Partial | Closed

  datatype Regime = Normal | Uptrend | Downtrend | Compression | CrowdedLeverage | PostLiquidation

  datatype ExitReason = StopLoss | TakeProfit | TakeProfitPartial | TrailingStop | Timeout | EndOfBacktest

  datatype OrderType = Limit | Market | Unsupported

  datatype Side = Buy | Sell

  datatype Candle = Candle(openTime: int, high: real, low: real, close: real)

  datatype Features = Features(
    timestamp: int,
    atr15m: real,
    ema50: real,
    ema200: real,
    sweepDetected: bool,
    reclaimDetected: bool,
    sweepLevel: Option<real>,
    sweepDepthPct: Option<real>,
    sweepSide: Option<SweepSide>,
    funding8h: real,
    cvdBullishDivergence: bool,
    cvdBearishDivergence: bool,
    tfi60s: real,
    forceOrderSpike: bool)

  datatype Reason =
    | LiquiditySweepDetected
    | ReclaimConfirmed
    | CvdBullishDivergence
    | CvdBearishDivergence
    | TfiImpulse
    | ForceOrderSpike
    | RegimeSpecial
    | EmaTrendAlignment
    | FundingSupportive
    | UptrendPullbackEntry
    | UptrendContinuationAcceptance
    | UptrendContinuationParticipation

  datatype SignalCandidate = SignalCandidate(
    signalId: nat,
    timestamp: int,
    direction: Direction,
    entryReference: real,
    invalidationLevel: real,
    tpReference1: real,
    tpReference2: real,
    confluenceScore: real,
    regime: Regime,
    reasons: seq<Reason>,
    atr15m: real)

  datatype ExecutableSignal = ExecutableSignal(
    signalId: nat,
    timestamp: int,
    direction: Direction,
    entryPrice: real,
    stopLoss: real,
    takeProfit1: real,
    takeProfit2: real,
    rrRatio: real)

  datatype Position = Position(
    positionId: nat,
    direction: Direction,
    status: PositionStatus,
    entryPrice: real,
    size: real,
    leverage: int,
    stopLoss: real,
    takeProfit1: real,
    takeProfit2: real,
    openedAt: int,
    updatedAt: int,
    signalId: nat)

  datatype TradeLog = TradeLog(
    tradeId: nat,
    signalId: nat,
    openedAt: int,
    closedAt: int,
    direction: Direction,
    regime: Regime,
    confluenceScore: real,
    entryPrice: real,
    exitPrice: real,
    size: real,
    fees: real,
    slippageBps: real,
    pnlAbs: real,
    pnlR: real,
    mae: real,
    mfe: real,
    exitReason: ExitReason,
    fundingPaid: real)

  /** What the replay hands to the runner for one bar: `features`, `regime` and
      `contextEligible` stand for whatever the feature, regime and context engines return. */
  datatype Snapshot = Snapshot(
    timestamp: int,
    price: real,
    lastCandle: Option<Candle>,
    features: Features,
    regime: Regime,
    contextEligible: Option<bool>)
}
