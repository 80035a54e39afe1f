/** The explanations attached to risk-check results and trading signals.
    The source renders them as (Chinese) message strings with numbers formatted into them;
    here each message is a tag carrying the numbers it prints. */
module Reasons {
  import opened Wrappers

  /** Messages of the risk gate (src/tbot/engine/risk_gate.py). */
  datatype GateReason =
    | AllChecksPassed
    | NoReason                                    // the empty reason of an individual passing check
    | DailyLossLimitHit
    | OpeningBuffer(bufferMinutes: int)
    | CoolingDown(remainingMinutes: real)
    | MaxRoundTripsReached
    | CloseOnlyPeriod
    | SpreadTooWide
    | DepthTooThin

  /** Messages of the signal generator (src/tbot/engine/signal_generator.py) and the engine's veto. */
  datatype SignalReason =
    | UnknownRegime
    | BreakoutConfirmed
    | RangeBuy(lowDeviation: Option<real>, nearOrLow: bool)
    | RangeSell(highDeviation: Option<real>, nearOrHigh: bool)
    | RangeWait
    | TrendPullbackBuy(deviation: real)
    | TrendExtensionSell(deviation: real)
    | TrendWait
    | DownTrendReboundSell(deviation: real)
    | DownTrendCoverBuy(deviation: real)
    | DownTrendWait
    | EventBuy(deviation: real)
    | EventSell(deviation: real)
    | EventWait
    | GateVeto(gate: GateReason)                  // "风险门控: " followed by the gate's reason
}
