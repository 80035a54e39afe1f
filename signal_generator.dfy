/** Regime-dispatched trading signals (src/tbot/engine/signal_generator.py).
    Each strategy is a function of the ledger's sizing view and a market snapshot; the generator
    object only keeps the two breakout counters used by the range-day strategy. */
module Signals {
  import opened Wrappers
  import opened Num
  import opened Reasons
  import Ledger
  import opened RegimeRules

  datatype SignalType = Buy | Sell | Hold

  /** `TradingSignal`. */
  datatype TradingSignal = TradingSignal(kind: SignalType, shares: int, reason: SignalReason, confidence: real,
                                         priceTarget: Option<real>, stopLoss: Option<real>)

  /** A HOLD signal: no shares, no confidence, no target. */
  function HoldFor(reason: SignalReason): (s: TradingSignal)
    ensures s.kind == Hold && s.shares == 0 && s.reason == reason
  {
    TradingSignal(Hold, 0, reason, 0.0, None, None)
  }

  /** `MarketSnapshot`: the latest price against the VWAP and the opening range. */
  datatype MarketSnapshot = MarketSnapshot(
    price: real, vwap: real, high: real, low: real, open: real, volume: int,
    orHigh: real, orLow: real, orComplete: bool, intradayVol: real, vwapSlope: real)
  {
    function DevFromVwap(): real { price - vwap }

    /** Deviation from the VWAP as a fraction of it; 0 without a positive VWAP. */
    function DevFromVwapPct(): (r: real)
      ensures vwap <= 0.0 ==> r == 0.0
      ensures vwap > 0.0 ==> r * vwap == price - vwap
    {
      if vwap <= 0.0 then 0.0 else (price - vwap) / vwap
    }

    /** Deviation from the VWAP in units of the intraday volatility; 0 without a positive volatility. */
    function DevNormalized(): (r: real)
      ensures intradayVol <= 0.0 ==> r == 0.0
      ensures intradayVol > 0.0 ==> r * intradayVol == price - vwap
      ensures intradayVol > 0.0 ==> (r <= 0.0 <==> price <= vwap)
    {
      if intradayVol <= 0.0 then 0.0 else DevFromVwap() / intradayVol
    }

    /** Within `band` (relative) of the opening-range high; the source divides by the high. */
    predicate NearOrHigh(band: real)
      requires orHigh != 0.0
    {
      Abs(price - orHigh) / orHigh <= band
    }

    predicate NearOrLow(band: real)
      requires orLow != 0.0
    {
      Abs(price - orLow) / orLow <= band
    }
  }

  /** The generator's thresholds (`SignalGenerator` fields). */
  datatype SignalConfig = SignalConfig(
    chopBuyThreshold: real,
    chopSellThreshold: real,
    orBandPct: real,
    breakoutHoldBars: int,
    trendPullbackThreshold: real,
    trendExtensionThreshold: real,
    supportBufferPct: real,
    eventBuyThreshold: real,
    eventSellThreshold: real,
    eventSizeMultiplier: real)

  const DefaultSignals := SignalConfig(-1.0, 1.0, 0.002, 5, -0.5, 1.5, 0.003, -1.5, 1.5, 0.5)

  // ----- range day -----

  /** The range-day conditions for buying and for selling. */
  predicate ChopBuyWanted(cfg: SignalConfig, pos: Ledger.Position, m: MarketSnapshot)
    requires m.orLow != 0.0
  {
    (m.DevNormalized() <= cfg.chopBuyThreshold || m.NearOrLow(cfg.orBandPct)) && pos.inventory <= 0
  }

  predicate ChopSellWanted(cfg: SignalConfig, pos: Ledger.Position, m: MarketSnapshot)
    requires m.orHigh != 0.0
  {
    (m.DevNormalized() >= cfg.chopSellThreshold || m.NearOrHigh(cfg.orBandPct)) && pos.inventory >= 0
  }

  /** `_generate_chop_signal` once no breakout is confirmed: mean reversion. A buy (tried first) needs
      a low price and no long tactical inventory and sizes to everything available; a sell mirrors it. */
  function ChopSignal(cfg: SignalConfig, pos: Ledger.Position, m: MarketSnapshot): (s: TradingSignal)
    requires m.orHigh != 0.0 && m.orLow != 0.0
    ensures s.kind == Buy <==> ChopBuyWanted(cfg, pos, m) && pos.AvailableBuy() > 0
    ensures s.kind == Sell <==>
      !(ChopBuyWanted(cfg, pos, m) && pos.AvailableBuy() > 0) && ChopSellWanted(cfg, pos, m) && pos.AvailableSell() > 0
    ensures s.kind == Buy ==>
      && s.shares == pos.AvailableBuy() && s.priceTarget == Some(m.vwap) && s.stopLoss == Some(m.orLow * 0.995)
      && s.confidence == Min(0.7 + Abs(m.DevNormalized()) * 0.1, 0.95)
    ensures s.kind == Sell ==>
      && s.shares == pos.AvailableSell() && s.priceTarget == Some(m.vwap) && s.stopLoss == Some(m.orHigh * 1.005)
      && s.confidence == Min(0.7 + m.DevNormalized() * 0.1, 0.95)
    ensures s.kind == Hold ==> s == HoldFor(RangeWait)
  {
    var dev := m.DevNormalized();
    if ChopBuyWanted(cfg, pos, m) && pos.AvailableBuy() > 0 then
      TradingSignal(Buy, pos.AvailableBuy(),
                    RangeBuy(if dev <= cfg.chopBuyThreshold then Some(dev) else None, m.NearOrLow(cfg.orBandPct)),
                    Min(0.7 + Abs(dev) * 0.1, 0.95), Some(m.vwap), Some(m.orLow * 0.995))
    else if ChopSellWanted(cfg, pos, m) && pos.AvailableSell() > 0 then
      TradingSignal(Sell, pos.AvailableSell(),
                    RangeSell(if dev >= cfg.chopSellThreshold then Some(dev) else None, m.NearOrHigh(cfg.orBandPct)),
                    Min(0.7 + dev * 0.1, 0.95), Some(m.vwap), Some(m.orHigh * 1.005))
    else HoldFor(RangeWait)
  }

  // ----- trend days -----

  /** `_generate_trend_up_signal`: buy a pullback that holds above the VWAP support when not long;
      trim an extension when long. */
  function TrendUpSignal(cfg: SignalConfig, pos: Ledger.Position, m: MarketSnapshot): (s: TradingSignal)
    ensures var buy := m.DevNormalized() <= cfg.trendPullbackThreshold && pos.inventory <= 0
                       && m.price >= m.vwap * (1.0 - cfg.supportBufferPct) && pos.AvailableBuy() > 0;
      && (s.kind == Buy <==> buy)
      && (s.kind == Sell <==> !buy && m.DevNormalized() >= cfg.trendExtensionThreshold && pos.inventory > 0
                              && pos.AvailableSell() > 0)
    ensures s.kind == Buy ==> s.shares == pos.AvailableBuy() && s.confidence == 0.75
                              && s.priceTarget == Some(m.high) && s.stopLoss == Some(m.vwap * 0.995)
    ensures s.kind == Sell ==> s.shares == pos.AvailableSell() && s.confidence == 0.7
                               && s.priceTarget == None && s.stopLoss == None
    ensures s.kind == Hold ==> s == HoldFor(TrendWait)
  {
    var dev := m.DevNormalized();
    if dev <= cfg.trendPullbackThreshold && pos.inventory <= 0
       && m.price >= m.vwap * (1.0 - cfg.supportBufferPct) && pos.AvailableBuy() > 0 then
      TradingSignal(Buy, pos.AvailableBuy(), TrendPullbackBuy(dev), 0.75, Some(m.high), Some(m.vwap * 0.995))
    else if dev >= cfg.trendExtensionThreshold && pos.inventory > 0 && pos.AvailableSell() > 0 then
      TradingSignal(Sell, pos.AvailableSell(), TrendExtensionSell(dev), 0.7, None, None)
    else HoldFor(TrendWait)
  }

  /** `_generate_trend_down_signal`: defensive. Sell a rebound only out of a long tactical
      inventory, and buy back a further drop only into a short one. */
  function TrendDownSignal(cfg: SignalConfig, pos: Ledger.Position, m: MarketSnapshot): (s: TradingSignal)
    ensures var sell := m.DevNormalized() >= -cfg.trendPullbackThreshold && pos.inventory > 0 && pos.AvailableSell() > 0;
      && (s.kind == Sell <==> sell)
      && (s.kind == Buy <==> !sell && m.DevNormalized() <= -cfg.trendExtensionThreshold && pos.inventory < 0
                             && pos.AvailableBuy() > 0)
    ensures s.kind == Sell ==> s.shares == pos.AvailableSell() && s.confidence == 0.7
    ensures s.kind == Buy ==> s.shares == pos.AvailableBuy() && s.confidence == 0.65
    ensures s.kind != Hold ==> s.priceTarget == None && s.stopLoss == None
    ensures s.kind == Hold ==> s == HoldFor(DownTrendWait)
  {
    var dev := m.DevNormalized();
    if dev >= -cfg.trendPullbackThreshold && pos.inventory > 0 && pos.AvailableSell() > 0 then
      TradingSignal(Sell, pos.AvailableSell(), DownTrendReboundSell(dev), 0.7, None, None)
    else if dev <= -cfg.trendExtensionThreshold && pos.inventory < 0 && pos.AvailableBuy() > 0 then
      TradingSignal(Buy, pos.AvailableBuy(), DownTrendCoverBuy(dev), 0.65, None, None)
    else HoldFor(DownTrendWait)
  }

  // ----- event day -----

  /** The reduced event-day size, truncated toward zero like Python's `int`: for a non-negative
      product, the whole number of shares just at or below it. */
  function EventShares(cfg: SignalConfig, available: int): (r: int)
    ensures var x := available as real * cfg.eventSizeMultiplier;
      x >= 0.0 ==> 0 <= r && r as real <= x < r as real + 1.0
  {
    Trunc(available as real * cfg.eventSizeMultiplier)
  }

  /** `_generate_event_signal`: wider thresholds, smaller size; a signal only for a positive size. */
  function EventSignal(cfg: SignalConfig, pos: Ledger.Position, m: MarketSnapshot): (s: TradingSignal)
    ensures var buy := m.DevNormalized() <= cfg.eventBuyThreshold && pos.inventory <= 0
                       && EventShares(cfg, pos.AvailableBuy()) > 0;
      && (s.kind == Buy <==> buy)
      && (s.kind == Sell <==> !buy && m.DevNormalized() >= cfg.eventSellThreshold && pos.inventory >= 0
                              && EventShares(cfg, pos.AvailableSell()) > 0)
    ensures s.kind == Buy ==> s.shares == EventShares(cfg, pos.AvailableBuy())
    ensures s.kind == Sell ==> s.shares == EventShares(cfg, pos.AvailableSell())
    ensures s.kind != Hold ==> s.confidence == 0.6 && s.priceTarget == Some(m.vwap) && s.stopLoss == None
    ensures s.kind == Hold ==> s == HoldFor(EventWait)
  {
    var dev := m.DevNormalized();
    if dev <= cfg.eventBuyThreshold && pos.inventory <= 0 && EventShares(cfg, pos.AvailableBuy()) > 0 then
      TradingSignal(Buy, EventShares(cfg, pos.AvailableBuy()), EventBuy(dev), 0.6, Some(m.vwap), None)
    else if dev >= cfg.eventSellThreshold && pos.inventory >= 0 && EventShares(cfg, pos.AvailableSell()) > 0 then
      TradingSignal(Sell, EventShares(cfg, pos.AvailableSell()), EventSell(dev), 0.6, Some(m.vwap), None)
    else HoldFor(EventWait)
  }

  /** A fraction of at most one of the available shares is never more than what is available. */
  lemma EventSharesBounded(cfg: SignalConfig, available: int)
    requires 0.0 <= cfg.eventSizeMultiplier <= 1.0 && available > 0
    ensures EventShares(cfg, available) <= available
  {
    var x := available as real * cfg.eventSizeMultiplier;
    assert x <= available as real by {
      assert available as real * (1.0 - cfg.eventSizeMultiplier) >= 0.0;
    }
  }

  // ----- breakout tracking -----

  /** `_update_breakout_tracking`: consecutive snapshots above the range high, or below its low;
      a snapshot inside the range clears both. */
  function Track(up: int, down: int, m: MarketSnapshot): (r: (int, int))
    ensures m.price > m.orHigh ==> r == (up + 1, 0)
    ensures !(m.price > m.orHigh) && m.price < m.orLow ==> r == (0, down + 1)
    ensures !(m.price > m.orHigh) && !(m.price < m.orLow) ==> r == (0, 0)
  {
    if m.price > m.orHigh then (up + 1, 0)
    else if m.price < m.orLow then (0, down + 1)
    else (0, 0)
  }

  predicate BreakoutHeld(cfg: SignalConfig, up: int, down: int) {
    up >= cfg.breakoutHoldBars || down >= cfg.breakoutHoldBars
  }

  /** Length of the run of snapshots at the end of `ms` that are above their range high. */
  function RunAbove(ms: seq<MarketSnapshot>): nat {
    if ms == [] then 0
    else if ms[|ms| - 1].price > ms[|ms| - 1].orHigh then RunAbove(ms[..|ms| - 1]) + 1
    else 0
  }

  /** Length of the run at the end of `ms` below the range low (and not above the high). */
  function RunBelow(ms: seq<MarketSnapshot>): nat {
    if ms == [] then 0
    else
      var m := ms[|ms| - 1];
      if !(m.price > m.orHigh) && m.price < m.orLow then RunBelow(ms[..|ms| - 1]) + 1
      else 0
  }

  /** The counters after tracking a sequence of snapshots from zero: never negative, and never
      both running. */
  function TrackAll(ms: seq<MarketSnapshot>): (r: (int, int))
    ensures r.0 >= 0 && r.1 >= 0 && (r.0 == 0 || r.1 == 0)
  {
    if ms == [] then (0, 0) else
      var r := TrackAll(ms[..|ms| - 1]);
      Track(r.0, r.1, ms[|ms| - 1])
  }

  /** From a reset, the counters are exactly the lengths of the trailing runs above and below. */
  lemma {:induction false} TrackCountsRuns(ms: seq<MarketSnapshot>)
    ensures TrackAll(ms) == (RunAbove(ms), RunBelow(ms))
  {
    if ms != [] {
      TrackCountsRuns(ms[..|ms| - 1]);
    }
  }

  // ----- dispatch -----

  /** What one call of `generate` does: the signal, or a division by zero from a zero opening-range
      bound on a range day (raised before the breakout counters move), and the new counters. */
  datatype Generated = Emitted(signal: TradingSignal, up: int, down: int) | DivisionByZero

  /** `generate`: dispatch on the regime. Only the range strategy touches the breakout counters,
      and it pauses while a breakout is confirmed; an unknown regime never trades. */
  function Decide(cfg: SignalConfig, up: int, down: int, pos: Ledger.Position, m: MarketSnapshot, regime: Regime): (g: Generated)
    ensures regime == Unknown ==> g == Emitted(HoldFor(UnknownRegime), up, down)
    ensures regime != Range ==> g.Emitted? && g.up == up && g.down == down
    ensures regime == Range ==>
      if m.orHigh == 0.0 || m.orLow == 0.0 then g == DivisionByZero
      else
        && g.Emitted? && (g.up, g.down) == Track(up, down, m)
        && (BreakoutHeld(cfg, g.up, g.down) ==> g.signal == HoldFor(BreakoutConfirmed))
        && (!BreakoutHeld(cfg, g.up, g.down) ==> g.signal == ChopSignal(cfg, pos, m))
    ensures regime == TrendUp ==> g.signal == TrendUpSignal(cfg, pos, m)
    ensures regime == TrendDown ==> g.signal == TrendDownSignal(cfg, pos, m)
    ensures regime == Event ==> g.signal == EventSignal(cfg, pos, m)
  {
    match regime
    case Range =>
      if m.orHigh == 0.0 || m.orLow == 0.0 then DivisionByZero
      else
        var t := Track(up, down, m);
        if BreakoutHeld(cfg, t.0, t.1) then Emitted(HoldFor(BreakoutConfirmed), t.0, t.1)
        else Emitted(ChopSignal(cfg, pos, m), t.0, t.1)
    case TrendUp => Emitted(TrendUpSignal(cfg, pos, m), up, down)
    case TrendDown => Emitted(TrendDownSignal(cfg, pos, m), up, down)
    case Event => Emitted(EventSignal(cfg, pos, m), up, down)
    case Unknown => Emitted(HoldFor(UnknownRegime), up, down)
  }

  /** Every emitted order is positive and within what the ledger makes available, so executing it
      keeps the tactical inventory within the cap. */
  lemma SignalWithinAvailability(cfg: SignalConfig, up: int, down: int, pos: Ledger.Position, m: MarketSnapshot, regime: Regime)
    requires 0.0 <= cfg.eventSizeMultiplier <= 1.0
    requires -pos.maxShares <= pos.inventory <= pos.maxShares
    ensures var g := Decide(cfg, up, down, pos, m, regime);
      g.Emitted? ==>
        && (g.signal.kind == Buy ==>
              0 < g.signal.shares <= pos.AvailableBuy() && -pos.maxShares <= pos.inventory + g.signal.shares <= pos.maxShares)
        && (g.signal.kind == Sell ==>
              0 < g.signal.shares <= pos.AvailableSell() && -pos.maxShares <= pos.inventory - g.signal.shares <= pos.maxShares)
        && (g.signal.kind == Hold ==> g.signal.shares == 0)
  {
    var g := Decide(cfg, up, down, pos, m, regime);
    if g.Emitted? {
      if regime == Event {
        if pos.AvailableBuy() > 0 {
          EventSharesBounded(cfg, pos.AvailableBuy());
        }
        if pos.AvailableSell() > 0 {
          EventSharesBounded(cfg, pos.AvailableSell());
        }
      }
      if g.signal.kind == Buy {
        Ledger.InventoryStaysCapped(pos, g.signal.shares);
      } else if g.signal.kind == Sell {
        Ledger.InventoryStaysCapped(pos, g.signal.shares);
      }
    }
  }

  /** `SignalGenerator`: the thresholds and the two breakout counters. */
  class SignalGenerator {
    const cfg: SignalConfig
    var breakoutUpBars: int
    var breakoutDownBars: int

    /** The counters are never negative and never both positive. */
    predicate Valid()
      reads this
    {
      breakoutUpBars >= 0 && breakoutDownBars >= 0 && (breakoutUpBars == 0 || breakoutDownBars == 0)
    }

    constructor (cfg: SignalConfig)
      ensures Valid() && this.cfg == cfg && breakoutUpBars == 0 && breakoutDownBars == 0
    {
      this.cfg := cfg;
      breakoutUpBars := 0;
      breakoutDownBars := 0;
    }

    method UpdateBreakoutTracking(m: MarketSnapshot)
      requires Valid()
      modifies this
      ensures Valid()
      ensures (breakoutUpBars, breakoutDownBars) == Track(old(breakoutUpBars), old(breakoutDownBars), m)
    {
      if m.price > m.orHigh {
        breakoutUpBars := breakoutUpBars + 1;
        breakoutDownBars := 0;
      } else if m.price < m.orLow {
        breakoutDownBars := breakoutDownBars + 1;
        breakoutUpBars := 0;
      } else {
        breakoutUpBars := 0;
        breakoutDownBars := 0;
      }
    }

    predicate IsBreakoutConfirmed()
      reads this
    {
      BreakoutHeld(cfg, breakoutUpBars, breakoutDownBars)
    }

    method ResetDaily()
      modifies this
      ensures Valid() && breakoutUpBars == 0 && breakoutDownBars == 0
    {
      breakoutUpBars := 0;
      breakoutDownBars := 0;
    }

    /** `generate`: `None` when the range strategy divides by a zero opening-range bound. */
    method Generate(pos: Ledger.Position, m: MarketSnapshot, regime: Regime) returns (signal: Option<TradingSignal>)
      requires Valid()
      modifies this
      ensures Valid()
      ensures var g := Decide(cfg, old(breakoutUpBars), old(breakoutDownBars), pos, m, regime);
        match g
        case DivisionByZero =>
          signal == None && breakoutUpBars == old(breakoutUpBars) && breakoutDownBars == old(breakoutDownBars)
        case Emitted(s, up, down) => signal == Some(s) && breakoutUpBars == up && breakoutDownBars == down
    {
      match regime
      case Range =>
        if m.orHigh == 0.0 || m.orLow == 0.0 {
          return None;
        }
        UpdateBreakoutTracking(m);
        if IsBreakoutConfirmed() {
          return Some(HoldFor(BreakoutConfirmed));
        }
        return Some(ChopSignal(cfg, pos, m));
      case TrendUp => return Some(TrendUpSignal(cfg, pos, m));
      case TrendDown => return Some(TrendDownSignal(cfg, pos, m));
      case Event => return Some(EventSignal(cfg, pos, m));
      case Unknown => return Some(HoldFor(UnknownRegime));
    }
  }

  /** The snapshots of the test suite, on a fresh 50/25 ledger: 99 against a VWAP of 100 with unit
      volatility buys 25 on a range day and 101 sells; a pullback to 99.5 buys on a trend-up day with
      a 1% support buffer; an event day holds at one sigma and buys 12 (half of 25) at 1.5. */
  lemma StrategyScenario()
    ensures ChopSignal(DefaultSignals, Ledger.Position(0, 50, 25),
                       MarketSnapshot(99.0, 100.0, 101.0, 98.0, 100.0, 10000, 101.0, 99.0, false, 1.0, 0.0))
            .kind == Buy
    ensures ChopSignal(DefaultSignals, Ledger.Position(0, 50, 25),
                       MarketSnapshot(99.0, 100.0, 101.0, 98.0, 100.0, 10000, 101.0, 99.0, false, 1.0, 0.0))
            .shares == 25
    ensures ChopSignal(DefaultSignals, Ledger.Position(0, 50, 25),
                       MarketSnapshot(101.0, 100.0, 102.0, 99.0, 100.0, 10000, 101.5, 99.0, false, 1.0, 0.0))
            .kind == Sell
    ensures TrendUpSignal(DefaultSignals.(supportBufferPct := 0.01), Ledger.Position(0, 50, 25),
                          MarketSnapshot(99.5, 100.0, 102.0, 99.0, 100.0, 10000, 101.0, 99.0, false, 1.0, 0.0))
            .kind == Buy
    ensures EventSignal(DefaultSignals, Ledger.Position(0, 50, 25),
                        MarketSnapshot(99.0, 100.0, 101.0, 98.0, 100.0, 10000, 101.0, 99.0, false, 1.0, 0.0))
            .kind == Hold
    ensures EventSignal(DefaultSignals, Ledger.Position(0, 50, 25),
                        MarketSnapshot(98.5, 100.0, 101.0, 98.0, 100.0, 10000, 101.0, 99.0, false, 1.0, 0.0))
            == TradingSignal(Buy, 12, EventBuy(-1.5), 0.6, Some(100.0), None)
  {
    assert Trunc(12.5) == 12;
  }
}
